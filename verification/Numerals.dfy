/** Numbers written in a radix, and texts split at a separator. */
module Numerals {
  datatype Option<+T> = None | Some(value: T)

  /** The digit's value, in either case for letters; 16 for anything that is not a hexadecimal digit. */
  function DigitValue(c: char): (value: nat)
    ensures value <= 16
  {
    if '0' <= c <= '9' then c as int - '0' as int
    else if 'a' <= c <= 'f' then c as int - 'a' as int + 10
    else if 'A' <= c <= 'F' then c as int - 'A' as int + 10
    else 16
  }

  predicate AllDigits(s: string, base: nat) {
    forall i | 0 <= i < |s| :: DigitValue(s[i]) < base
  }

  /** The positional value of a digit string. */
  function Positional(s: string, base: nat): nat {
    if s == "" then 0 else Positional(s[..|s| - 1], base) * base + DigitValue(s[|s| - 1])
  }

  function DigitChar(d: nat): (c: char)
    requires d < 16
    ensures DigitValue(c) == d && c != '.' && c != ':' && (c == '0' <==> d == 0)
  {
    if d < 10 then ('0' as int + d) as char else ('a' as int + d - 10) as char
  }

  /** The shortest spelling of a number, lower-case. */
  function Spelled(n: nat, base: nat): (s: string)
    requires 2 <= base <= 16
    ensures s != ""
    decreases n
  {
    if n < base then [DigitChar(n)] else Spelled(n / base, base) + [DigitChar(n % base)]
  }

  lemma {:induction false} SpelledIsPositional(n: nat, base: nat)
    requires 2 <= base <= 16
    ensures AllDigits(Spelled(n, base), base) && Positional(Spelled(n, base), base) == n
    decreases n
  {
    hide Positional, AllDigits;
    if n < base {
      NoDigits(base);
      MoreDigits("", n, base);
      assert "" + [DigitChar(n)] == Spelled(n, base);
    } else {
      SpelledIsPositional(n / base, base);
      Whole(n, base);
      MoreDigits(Spelled(n / base, base), n % base, base);
    }
  }

  lemma NoDigits(base: nat)
    ensures AllDigits("", base) && Positional("", base) == 0
  {
  }

  lemma MoreDigits(s: string, d: nat, base: nat)
    requires d < base <= 16 && AllDigits(s, base)
    ensures AllDigits(s + [DigitChar(d)], base)
      && Positional(s + [DigitChar(d)], base) == Positional(s, base) * base + d
  {
    assert (s + [DigitChar(d)])[..|s|] == s;
  }

  lemma {:induction false} SpelledChars(n: nat, base: nat)
    requires 2 <= base <= 16
    ensures '.' !in Spelled(n, base) && ':' !in Spelled(n, base)
    ensures n >= base ==> |Spelled(n, base)| >= 2
    ensures Spelled(n, base)[0] == '0' ==> n == 0
    decreases n
  {
    hide DigitValue;
    if n >= base {
      Smaller(n, base);
      SpelledChars(n / base, base);
    }
  }

  lemma Smaller(n: nat, base: nat)
    requires 2 <= base <= n
    ensures 0 < n / base < n
  {
  }

  lemma Whole(n: nat, base: nat)
    requires base >= 2
    ensures n / base * base + n % base == n && n % base < base && (n >= base ==> n / base > 0)
  {
  }

  /** The pieces of the text between the separators; always at least one. */
  function Split(s: string, sep: char): (parts: seq<string>)
    ensures |parts| > 0
  {
    if s == "" then [""]
    else
      var before, c := Split(s[..|s| - 1], sep), s[|s| - 1];
      if c == sep then before + [""] else before[..|before| - 1] + [before[|before| - 1] + [c]]
  }

  function Join(parts: seq<string>, sep: char): string {
    if parts == [] then ""
    else if |parts| == 1 then parts[0]
    else Join(parts[..|parts| - 1], sep) + [sep] + parts[|parts| - 1]
  }

  /** One more character ends up in the last piece, or starts a new one. */
  lemma SplitStep(s: string, c: char, sep: char)
    ensures var before := Split(s, sep);
      Split(s + [c], sep) == if c == sep then before + [""] else before[..|before| - 1] + [before[|before| - 1] + [c]]
  {
    assert (s + [c])[..|s|] == s;
  }

  lemma {:induction false} SplitPlain(s: string, part: string, sep: char)
    requires sep !in part
    ensures var before := Split(s, sep); Split(s + part, sep) == before[..|before| - 1] + [before[|before| - 1] + part]
    decreases |part|
  {
    hide Split;
    var before := Split(s, sep);
    if part == "" {
      assert s + part == s && before[|before| - 1] + part == before[|before| - 1];
    } else {
      var front, c := part[..|part| - 1], part[|part| - 1];
      SplitPlain(s, front, sep);
      SplitStep(s + front, c, sep);
      assert s + front + [c] == s + part && before[|before| - 1] + front + [c] == before[|before| - 1] + part;
    }
  }

  lemma JoinStep(front: seq<string>, last: string, sep: char)
    ensures Join(front + [last], sep) == if front == [] then last else Join(front, sep) + [sep] + last
  {
    assert front == [] ==> front + [last] == [last];
    assert (front + [last])[..|front|] == front;
  }

  /** One more separator and one more piece. */
  lemma SplitMore(text: string, last: string, sep: char)
    requires sep !in last
    ensures Split(text + [sep] + last, sep) == Split(text, sep) + [last]
  {
    hide Split;
    SplitStep(text, sep, sep);
    SplitPlain(text + [sep], last, sep);
    assert "" + last == last;
  }

  lemma {:induction false} SplitJoin(parts: seq<string>, sep: char)
    requires |parts| > 0 && forall i | 0 <= i < |parts| :: sep !in parts[i]
    ensures Split(Join(parts, sep), sep) == parts
  {
    var front, last := parts[..|parts| - 1], parts[|parts| - 1];
    assert parts == front + [last];
    JoinStep(front, last, sep);
    if front == [] {
      SplitPlain("", last, sep);
      assert "" + last == last;
    } else {
      hide Split, Join;
      SplitJoin(front, sep);
      SplitMore(Join(front, sep), last, sep);
    }
  }
}
