/** The spellings of an IPv4 address that browsers understand, as a printer: what a label or a host is read as is told
    from how it can be written, not from the parser's tests on prefixes and radices. */
module HostSpellings {
  import M = Markup
  import opened Numerals
  import IPv4
  import opened OriginHost

  // ---- Labels ----

  /** Plain decimal; octal after a zero; hexadecimal after a zero and an x; both with any number of further zeros. An x
      with no digits is zero. */
  datatype Spelling = Decimal | Octal(zeros: nat) | Hex(zeros: nat) | HexNothing

  function Zeros(count: nat): (s: string)
    ensures |s| == count && forall i | 0 <= i < count :: s[i] == '0'
  {
    if count == 0 then "" else "0" + Zeros(count - 1)
  }

  /** The label in lower case. */
  function Write(n: nat, how: Spelling): string {
    match how
    case Decimal => Spelled(n, 10)
    case Octal(zeros) => "0" + Zeros(zeros) + Spelled(n, 8)
    case Hex(zeros) => "0x" + Zeros(zeros) + Spelled(n, 16)
    case HexNothing => "0x"
  }

  /** The label stands for the number, in any letter case. */
  ghost predicate Denotes(part: string, n: nat) {
    exists how: Spelling :: (how == HexNothing ==> n == 0) && M.Spells(part, Write(n, how))
  }

  lemma LowerDigit(c: char)
    ensures DigitValue(M.LowerChar(c)) == DigitValue(c)
    ensures M.LowerChar(c) == '0' <==> c == '0'
    ensures M.LowerChar(c) == 'x' <==> c == 'x' || c == 'X'
  {
  }

  lemma {:induction false} LowerPositional(s: string, base: nat)
    ensures AllDigits(M.ToLower(s), base) == AllDigits(s, base)
    ensures Positional(M.ToLower(s), base) == Positional(s, base)
  {
    var lower := M.ToLower(s);
    forall i | 0 <= i < |s| ensures DigitValue(lower[i]) == DigitValue(s[i]) { LowerDigit(s[i]); }
    if s != "" {
      LowerPositional(s[..|s| - 1], base);
      assert M.ToLower(s[..|s| - 1]) == lower[..|s| - 1];
    }
  }

  /** The letter case of a label does not matter. */
  lemma LowerNumber(part: string)
    ensures IPv4.Number(M.ToLower(part)) == IPv4.Number(part)
  {
    hide Positional, AllDigits;
    var lower := M.ToLower(part);
    if |part| >= 1 { LowerDigit(part[0]); assert lower[0] == M.LowerChar(part[0]); }
    if |part| >= 2 { LowerDigit(part[1]); assert lower[1] == M.LowerChar(part[1]); }
    assert |part| >= 2 ==> M.ToLower(part[2..]) == lower[2..];
    assert |part| >= 1 ==> M.ToLower(part[1..]) == lower[1..];
    LowerPositional(part, 10);
    if |part| >= 2 {
      LowerPositional(part[1..], 8);
      LowerPositional(part[2..], 16);
    }
  }

  lemma LeadingZeros(count: nat, s: string, base: nat)
    requires base > 0
    ensures AllDigits(Zeros(count) + s, base) == AllDigits(s, base)
    ensures Positional(Zeros(count) + s, base) == Positional(s, base)
  {
    hide Positional;
    var all := Zeros(count) + s;
    assert forall i | 0 <= i < |s| :: s[i] == all[count + i];
    assert forall i | 0 <= i < count :: all[i] == Zeros(count)[i];
    ZerosAddNothing(count, s, base);
  }

  lemma {:induction false} ZerosAddNothing(count: nat, s: string, base: nat)
    ensures Positional(Zeros(count) + s, base) == Positional(s, base)
    decreases |s|, count
  {
    hide Zeros;
    var all := Zeros(count) + s;
    if s != "" {
      ZerosAddNothing(count, s[..|s| - 1], base);
      assert all[..|all| - 1] == Zeros(count) + s[..|s| - 1];
    } else if count > 0 {
      ZerosMore(count - 1);
      assert all[..count - 1] == Zeros(count - 1) + "";
      ZerosAddNothing(count - 1, "", base);
    }
  }

  lemma {:induction false} ZerosMore(count: nat)
    ensures Zeros(count + 1) == Zeros(count) + "0"
  {
    if count > 0 {
      ZerosMore(count - 1);
    }
  }

  lemma DecimalReads(n: nat)
    requires n <= 0xFFFF_FFFF
    ensures IPv4.Number(Spelled(n, 10)) == Some(n)
  {
    hide Positional, AllDigits, DigitValue;
    SpelledIsPositional(n, 10);
    SpelledChars(n, 10);
    if n < 10 { assert |Spelled(n, 10)| == 1; }
  }

  lemma OctalReads(n: nat, zeros: nat)
    requires n <= 0xFFFF_FFFF
    ensures IPv4.Number("0" + Zeros(zeros) + Spelled(n, 8)) == Some(n)
  {
    hide Positional, AllDigits, DigitValue, Spelled, Zeros;
    var digits := Zeros(zeros) + Spelled(n, 8);
    SpelledIsPositional(n, 8);
    LeadingZeros(zeros, Spelled(n, 8), 8);
    OctalHasNoX(zeros, n);
    assert "0" + Zeros(zeros) + Spelled(n, 8) == "0" + digits && ("0" + digits)[1..] == digits;
  }

  lemma HexReads(n: nat, zeros: nat)
    requires n <= 0xFFFF_FFFF
    ensures IPv4.Number("0x" + Zeros(zeros) + Spelled(n, 16)) == Some(n)
  {
    hide Positional, AllDigits, DigitValue, Spelled, Zeros;
    var digits := Zeros(zeros) + Spelled(n, 16);
    SpelledIsPositional(n, 16);
    LeadingZeros(zeros, Spelled(n, 16), 16);
    assert "0x" + Zeros(zeros) + Spelled(n, 16) == "0x" + digits && ("0x" + digits)[2..] == digits;
  }

  lemma NothingReads()
    ensures IPv4.Number("0x") == Some(0)
  {
    NoDigits(16);
    assert "0x"[2..] == "";
  }

  /** A written label reads as its number. */
  lemma WrittenReads(n: nat, how: Spelling)
    requires n <= 0xFFFF_FFFF && (how == HexNothing ==> n == 0)
    ensures IPv4.Number(Write(n, how)) == Some(n)
  {
    hide IPv4.Number;
    match how
    case Decimal => DecimalReads(n);
    case Octal(zeros) => OctalReads(n, zeros);
    case Hex(zeros) => HexReads(n, zeros);
    case HexNothing => NothingReads();
  }

  lemma OctalHasNoX(zeros: nat, n: nat)
    ensures var digits := Zeros(zeros) + Spelled(n, 8); digits[0] != 'x' && digits[0] != 'X'
  {
    SpelledIsPositional(n, 8);
    assert DigitValue(Spelled(n, 8)[0]) < 8;
  }

  lemma LowerDigits(s: string, i: nat)
    requires i < |s| && M.ToLower(s) == s && DigitValue(s[i]) < 16
    ensures DigitChar(DigitValue(s[i])) == s[i]
  {
    assert s[i] == M.LowerChar(s[i]);
  }

  lemma LastDigit(s: string, base: nat)
    requires s != "" && AllDigits(s, base)
    ensures var front, d := s[..|s| - 1], DigitValue(s[|s| - 1]);
      AllDigits(front, base) && d < base && Positional(s, base) == Positional(front, base) * base + d
  {
  }

  /** Digits in lower case are zeros and the shortest spelling of their value. */
  lemma {:induction false} DigitsSpell(s: string, base: nat) returns (zeros: nat)
    requires 2 <= base <= 16 && s != "" && AllDigits(s, base) && M.ToLower(s) == s
    ensures s == Zeros(zeros) + Spelled(Positional(s, base), base)
    decreases |s|
  {
    hide Positional, AllDigits, DigitValue, Spelled, Zeros, M.ToLower;
    var front, last := s[..|s| - 1], s[|s| - 1];
    LastDigit(s, base);
    LowerDigits(s, |s| - 1);
    if front == "" {
      zeros := OnlyDigit(s, base);
    } else {
      LowerFront(s);
      zeros := DigitsSpell(front, base);
      zeros := OneMoreDigit(s, zeros, base);
    }
  }

  lemma OnlyDigit(s: string, base: nat) returns (zeros: nat)
    requires 2 <= base <= 16 && |s| == 1 && DigitValue(s[0]) < base && DigitChar(DigitValue(s[0])) == s[0]
    ensures s == Zeros(zeros) + Spelled(Positional(s, base), base)
  {
    hide AllDigits, DigitValue, Spelled;
    zeros := 0;
    NoDigits(base);
    OneDigit(DigitValue(s[0]), base);
    assert s[..0] == "" && s == [s[0]];
  }

  lemma OneMoreDigit(s: string, before: nat, base: nat) returns (zeros: nat)
    requires 2 <= base <= 16 && |s| > 1
    requires var front, d := s[..|s| - 1], DigitValue(s[|s| - 1]);
      && d < base && DigitChar(d) == s[|s| - 1] && Positional(s, base) == Positional(front, base) * base + d
      && front == Zeros(before) + Spelled(Positional(front, base), base)
    ensures s == Zeros(zeros) + Spelled(Positional(s, base), base)
  {
    hide Positional, AllDigits, DigitValue, Spelled, Zeros;
    var v, d := Positional(s[..|s| - 1], base), DigitValue(s[|s| - 1]);
    zeros := before;
    assert s == s[..|s| - 1] + [DigitChar(d)];
    if v == 0 {
      ZerosMore(before);
      OneDigit(0, base);
      OneDigit(d, base);
      zeros := before + 1;
    } else {
      OneDigitMore(v, d, base);
      assert s == Zeros(zeros) + (Spelled(v, base) + [DigitChar(d)]);
    }
  }

  lemma OneDigit(d: nat, base: nat)
    requires d < base && 2 <= base <= 16
    ensures Spelled(d, base) == [DigitChar(d)] && (d == 0 ==> Spelled(d, base) == "0")
  {
  }

  lemma LowerFront(s: string)
    requires s != "" && M.ToLower(s) == s
    ensures M.ToLower(s[..|s| - 1]) == s[..|s| - 1]
  {
    assert M.ToLower(s[..|s| - 1]) == M.ToLower(s)[..|s| - 1];
  }

  lemma OneDigitMore(v: nat, d: nat, base: nat)
    requires 2 <= base <= 16 && v > 0 && d < base
    ensures Spelled(v * base + d, base) == Spelled(v, base) + [DigitChar(d)]
  {
    assert (v * base + d) / base == v && (v * base + d) % base == d by { DivideBack(v, d, base); }
    assert v * base + d >= base by { TimesBig(v, base); }
  }

  lemma TimesBig(v: nat, base: nat)
    requires v > 0
    ensures v * base >= base
  {
  }

  lemma DivideBack(v: nat, d: nat, base: nat)
    requires d < base && base >= 2
    ensures (v * base + d) / base == v && (v * base + d) % base == d
  {
    var n := v * base + d;
    Whole(n, base);
    SameQuotient(v, d, n / base, n % base, base);
  }

  lemma TimesMonotone(a: nat, b: nat, base: nat)
    ensures a <= b ==> a * base <= b * base
  {
  }

  lemma SameQuotient(v: nat, d: nat, w: nat, e: nat, base: nat)
    requires v * base + d == w * base + e && d < base && e < base
    ensures v == w && d == e
  {
    TimesMonotone(v + 1, w, base);
    TimesMonotone(w + 1, v, base);
  }

  /** The spelling of a number is the only one in lower-case digits without a leading zero. */
  lemma SpelledIff(s: string, n: nat, base: nat)
    requires base in {8, 10, 16}
    ensures s == Spelled(n, base) <==>
      && s != "" && (forall i | 0 <= i < |s| :: '0' <= s[i] <= '9' || 'a' <= s[i] <= 'f')
      && AllDigits(s, base) && Positional(s, base) == n && (|s| == 1 || s[0] != '0')
  {
    hide Positional, AllDigits, DigitValue, Spelled;
    SpelledIsPositional(n, base);
    SpelledChars(n, base);
    SpelledDigits(n, base);
    if n == 0 { OneDigit(0, base); }
    if s != "" && Digits(s, true) && AllDigits(s, base) && (|s| == 1 || s[0] != '0') {
      DigitsLower(s);
      var zeros := DigitsSpell(s, base);
      NoZeros(s, zeros, Spelled(Positional(s, base), base));
    }
  }

  lemma DigitsLower(s: string)
    requires Digits(s, true)
    ensures M.ToLower(s) == s
  {
    forall i | 0 <= i < |s| ensures M.LowerChar(s[i]) == s[i] {
    }
  }

  /** What reads as a number, in lower case, is written in one of the spellings. */
  lemma ReadIsWritten(s: string) returns (how: Spelling)
    requires IPv4.Number(s).Some? && M.ToLower(s) == s
    ensures (how == HexNothing ==> IPv4.Number(s).value == 0) && s == Write(IPv4.Number(s).value, how)
  {
    hide Positional, AllDigits, DigitValue, Spelled, Zeros;
    var (base, digits) := IPv4.Radix(s);
    if |s| >= 2 { LowerTails(s); }
    if base == 16 {
      if digits == "" {
        how := HexNothing;
        NoDigits(16);
      } else {
        var zeros := DigitsSpell(digits, 16);
        how := Hex(zeros);
      }
    } else if base == 8 {
      var zeros := DigitsSpell(digits, 8);
      how := Octal(zeros);
    } else {
      var zeros := DigitsSpell(digits, 10);
      how := Decimal;
      NoZeros(digits, zeros, Spelled(Positional(digits, 10), 10));
    }
  }

  lemma LowerTails(s: string)
    requires M.ToLower(s) == s && |s| >= 2
    ensures M.ToLower(s[1..]) == s[1..] && M.ToLower(s[2..]) == s[2..] && s[1] != 'X'
  {
    assert M.ToLower(s[1..]) == M.ToLower(s)[1..] && M.ToLower(s[2..]) == M.ToLower(s)[2..];
    assert s[1] == M.LowerChar(s[1]);
  }

  /** Without a leading zero in front of another digit there are no zeros. */
  lemma NoZeros(s: string, zeros: nat, rest: string)
    requires s == Zeros(zeros) + rest && rest != "" && (|s| == 1 || s[0] != '0')
    ensures s == rest
  {
    StartsWithZero(zeros, rest);
    assert Zeros(0) + rest == rest;
  }

  lemma StartsWithZero(zeros: nat, rest: string)
    requires rest != ""
    ensures var s := Zeros(zeros) + rest; zeros > 0 ==> s[0] == '0' && |s| >= 2
  {
  }

  /** A label reads as a number exactly when it stands for it, in any spelling and letter case, and the number has at
      most 32 bits. */
  lemma NumberIff(part: string, n: nat)
    ensures IPv4.Number(part) == Some(n) <==> n <= 0xFFFF_FFFF && Denotes(part, n)
  {
    hide IPv4.Number, Write, M.Spells;
    LowerNumber(part);
    if IPv4.Number(part) == Some(n) {
      var how := ReadIsWritten(M.ToLower(part));
      assert M.Spells(part, Write(n, how));
      assert n <= 0xFFFF_FFFF;
    }
    if n <= 0xFFFF_FFFF && Denotes(part, n) {
      var how: Spelling :| (how == HexNothing ==> n == 0) && M.Spells(part, Write(n, how));
      WrittenReads(n, how);
    }
  }

  /** The spellings one by one, up to the largest 32-bit number; a larger number reads as none in any of them. */
  lemma RadicesRead(n: nat)
    ensures IPv4.Number(Spelled(n, 10)) == if n <= 0xFFFF_FFFF then Some(n) else None
    ensures IPv4.Number("0" + Spelled(n, 8)) == if n <= 0xFFFF_FFFF then Some(n) else None
    ensures IPv4.Number("0x" + Spelled(n, 16)) == if n <= 0xFFFF_FFFF then Some(n) else None
    ensures IPv4.Number("0X" + Spelled(n, 16)) == if n <= 0xFFFF_FFFF then Some(n) else None
    ensures IPv4.Number("0x") == IPv4.Number("0X") == Some(0) && IPv4.Number("") == None
  {
    hide IPv4.Number, Spelled;
    assert "0" + Zeros(0) == "0" && "0x" + Zeros(0) == "0x";
    WrittenValue(n, Decimal);
    WrittenValue(n, Octal(0));
    WrittenValue(n, Hex(0));
    NothingReads();
    CapitalX("");
    CapitalX(Spelled(n, 16));
    assert "0x" + "" == "0x" && "0X" + "" == "0X";
    EmptyReads();
  }

  lemma EmptyReads()
    ensures IPv4.Number("") == None
  {
  }

  lemma CapitalX(digits: string)
    ensures IPv4.Number("0X" + digits) == IPv4.Number("0x" + digits)
  {
    hide IPv4.Number;
    LowerNumber("0X" + digits);
    LowerNumber("0x" + digits);
    assert M.ToLower("0X" + digits) == M.ToLower("0x" + digits);
  }

  /** No label stands for two numbers, and each number is written with its own value. */
  lemma WrittenValue(n: nat, how: Spelling)
    requires how != HexNothing
    ensures IPv4.Number(Write(n, how)) == if n <= 0xFFFF_FFFF then Some(n) else None
  {
    hide IPv4.Number;
    if n <= 0xFFFF_FFFF {
      WrittenReads(n, how);
    } else {
      TooLarge(n, how);
    }
  }

  lemma TooLarge(n: nat, how: Spelling)
    requires how != HexNothing && n > 0xFFFF_FFFF
    ensures IPv4.Number(Write(n, how)) == None
  {
    hide Positional, AllDigits, DigitValue, Spelled, Zeros;
    match how
    case Decimal =>
      SpelledIsPositional(n, 10);
      SpelledChars(n, 10);
    case Octal(zeros) =>
      var digits := Zeros(zeros) + Spelled(n, 8);
      SpelledIsPositional(n, 8);
      LeadingZeros(zeros, Spelled(n, 8), 8);
      OctalHasNoX(zeros, n);
      assert "0" + Zeros(zeros) + Spelled(n, 8) == "0" + digits && ("0" + digits)[1..] == digits;
    case Hex(zeros) =>
      var digits := Zeros(zeros) + Spelled(n, 16);
      SpelledIsPositional(n, 16);
      LeadingZeros(zeros, Spelled(n, 16), 16);
      assert "0x" + Zeros(zeros) + Spelled(n, 16) == "0x" + digits && ("0x" + digits)[2..] == digits;
  }

  // ---- Hosts ----

  /** One to four numbers: all but the last are bytes, and the last fills the bytes that are left. */
  predicate InRange(values: seq<nat>) {
    || (|values| == 1 && values[0] <= 0xFFFF_FFFF)
    || (|values| == 2 && values[0] <= 0xFF && values[1] <= 0xFF_FFFF)
    || (|values| == 3 && values[0] <= 0xFF && values[1] <= 0xFF && values[2] <= 0xFFFF)
    || (|values| == 4 && values[0] <= 0xFF && values[1] <= 0xFF && values[2] <= 0xFF && values[3] <= 0xFF)
  }

  function Denoted(values: seq<nat>): nat
    requires InRange(values)
  {
    match |values|
    case 1 => values[0]
    case 2 => values[0] * 0x100_0000 + values[1]
    case 3 => values[0] * 0x100_0000 + values[1] * 0x1_0000 + values[2]
    case _ => values[0] * 0x100_0000 + values[1] * 0x1_0000 + values[2] * 0x100 + values[3]
  }

  lemma RangeIsParts(values: seq<nat>)
    ensures InRange(values) <==> IPv4.Parts(values)
    ensures InRange(values) ==> IPv4.Address(values) == Denoted(values)
  {
    hide IPv4.Weight, IPv4.Address;
    IPv4.Weights();
    if IPv4.Parts(values) { IPv4.AddressForms(values); }
  }

  /** The labels are written in any of the spellings, each in its own. */
  ghost predicate Writes(labels: seq<string>, values: seq<nat>) {
    |labels| == |values| && forall i | 0 <= i < |labels| :: Written(labels[i], values[i])
  }

  ghost predicate Written(part: string, n: nat) {
    exists how: Spelling :: (how == HexNothing ==> n == 0) && part == Write(n, how)
  }

  predicate HexDigit(c: char) {
    '0' <= c <= '9' || 'a' <= c <= 'f' || 'A' <= c <= 'F'
  }

  /** A label that browsers take for a number: all decimal digits, or hexadecimal digits after the prefix. */
  predicate Numeric(part: string) {
    || (part != "" && forall i | 0 <= i < |part| :: '0' <= part[i] <= '9')
    || (|part| >= 2 && part[0] == '0' && (part[1] == 'x' || part[1] == 'X')
        && forall i | 2 <= i < |part| :: HexDigit(part[i]))
  }

  /** Digits as they are written, decimal or also hexadecimal. */
  predicate Digits(s: string, hex: bool) {
    forall i | 0 <= i < |s| :: '0' <= s[i] <= '9' || (hex && 'a' <= s[i] <= 'f')
  }

  lemma DigitRange(d: nat, base: nat)
    requires d < base <= 16
    ensures Digits([DigitChar(d)], base > 10)
  {
  }

  lemma MoreWritten(s: string, t: string, hex: bool)
    requires Digits(s, hex) && Digits(t, hex)
    ensures Digits(s + t, hex)
  {
  }

  lemma {:induction false} SpelledDigits(n: nat, base: nat)
    requires 2 <= base <= 16
    ensures Digits(Spelled(n, base), base > 10)
    decreases n
  {
    hide DigitValue, Digits;
    if n >= base {
      Smaller(n, base);
      Whole(n, base);
      SpelledDigits(n / base, base);
      DigitRange(n % base, base);
      MoreWritten(Spelled(n / base, base), [DigitChar(n % base)], base > 10);
    } else {
      DigitRange(n, base);
    }
  }

  lemma NumericDigits(s: string)
    ensures s != "" && Digits(s, false) ==> Numeric(s) && '.' !in s
    ensures Digits(s, true) ==> Numeric("0x" + s) && '.' !in "0x" + s
  {
    var t := "0x" + s;
    assert forall i | 2 <= i < |t| :: t[i] == s[i - 2];
  }

  lemma WrittenShape(part: string, n: nat)
    requires Written(part, n)
    ensures '.' !in part && part != "" && Numeric(part)
  {
    hide Spelled, Numeric;
    var how: Spelling :| (how == HexNothing ==> n == 0) && part == Write(n, how);
    match how
    case Decimal =>
      SpelledDigits(n, 10);
      NumericDigits(part);
    case Octal(zeros) =>
      SpelledDigits(n, 8);
      MoreWritten("0" + Zeros(zeros), Spelled(n, 8), false);
      NumericDigits(part);
    case Hex(zeros) =>
      SpelledDigits(n, 16);
      MoreWritten(Zeros(zeros), Spelled(n, 16), true);
      assert part == "0x" + (Zeros(zeros) + Spelled(n, 16));
      NumericDigits(Zeros(zeros) + Spelled(n, 16));
    case HexNothing =>
      assert part == "0x" + "";
      NumericDigits("");
  }

  lemma NumericEnds(host: string, front: seq<string>, last: string)
    requires Split(host, '.') == front + [last]
    ensures EndsInIPv4Number(host) <==> Numeric(last)
  {
    assert RadixDigits(last, 10) <==> last != "" && forall i | 0 <= i < |last| :: '0' <= last[i] <= '9';
    if |last| >= 2 { HexTail(last); }
  }

  lemma HexTail(s: string)
    requires |s| >= 2
    ensures AllDigits(s[2..], 16) <==> forall i | 2 <= i < |s| :: HexDigit(s[i])
  {
    if AllDigits(s[2..], 16) {
      forall i | 2 <= i < |s| ensures HexDigit(s[i]) { assert s[2..][i - 2] == s[i]; }
    }
  }

  /** A host name in ASCII with its root dots: what is left of it. */
  lemma {:induction false} DotsOff(base: string, dots: string)
    requires (forall i | 0 <= i < |dots| :: dots[i] == '.') && (base == "" || base[|base| - 1] != '.')
    ensures TrimRightDots(base + dots) == base
    decreases |dots|
  {
    if dots == "" {
      assert base + dots == base;
    } else {
      assert (base + dots)[..|base + dots| - 1] == base + dots[..|dots| - 1];
      DotsOff(base, dots[..|dots| - 1]);
    }
  }

  predicate RootDots(base: string, dots: string) {
    && ASCII(base) && ':' !in base && (base == "" || base[|base| - 1] != '.')
    && forall i | 0 <= i < |dots| :: dots[i] == '.'
  }

  lemma DomainOf(base: string, dots: string, idna: ToASCII)
    requires RootDots(base, dots)
    ensures CanonicalDomainHost(base + dots, idna) == if base == "" then Err(Empty) else Ok(M.ToLower(base))
  {
    DotsOff(base, dots);
    assert ASCII(base + dots);
    assert M.ToLower(base) == "" <==> base == "";
  }

  /** The text of an address: its bytes in decimal. */
  function Dotted(a: nat, b: nat, c: nat, d: nat): string {
    Spelled(a, 10) + "." + Spelled(b, 10) + "." + Spelled(c, 10) + "." + Spelled(d, 10)
  }

  lemma FormatIsDotted(a: nat, b: nat, c: nat, d: nat)
    ensures IPv4.Format([a, b, c, d]) == Dotted(a, b, c, d)
  {
    var x, y, z, w := Spelled(a, 10), Spelled(b, 10), Spelled(c, 10), Spelled(d, 10);
    hide Spelled, Join;
    assert IPv4.Labels([a, b, c, d]) == [x, y, z, w];
    JoinStep([], x, '.');
    JoinStep([x], y, '.');
    JoinStep([x, y], z, '.');
    JoinStep([x, y, z], w, '.');
    assert [] + [x] == [x] && [x] + [y] == [x, y] && [x, y] + [z] == [x, y, z] && [x, y, z] + [w] == [x, y, z, w];
  }

  lemma QuadIs(a: nat, b: nat, c: nat, d: nat, address: nat)
    requires a <= 0xFF && b <= 0xFF && c <= 0xFF && d <= 0xFF
    requires a * 0x100_0000 + b * 0x1_0000 + c * 0x100 + d == address
    ensures IPv4.Quad(address) == [a, b, c, d]
  {
    hide IPv4.Quad, IPv4.Weight, IPv4.Address;
    IPv4.Weights();
    IPv4.QuadSums(address);
    IPv4.AddressForms(IPv4.Quad(address));
    IPv4.AddressForms([a, b, c, d]);
    IPv4.AddressInjective(IPv4.Quad(address), [a, b, c, d]);
  }

  lemma LabelsRead(labels: seq<string>, values: seq<nat>)
    requires Writes(labels, values) && InRange(values)
    ensures Split(Join(labels, '.'), '.') == labels && EndsInIPv4Number(Join(labels, '.'))
    ensures IPv4.ParseHost(Join(labels, '.')) == Some(Denoted(values))
  {
    hide IPv4.Number, Write, Numeric, Split, Join, EndsInIPv4Number, IPv4.Address, Denoted, IPv4.Numbers;
    forall i | 0 <= i < |labels|
      ensures '.' !in labels[i] && Numeric(labels[i]) && IPv4.Number(labels[i]) == Some(values[i])
    {
      assert Written(labels[i], values[i]);
      WrittenShape(labels[i], values[i]);
      var how: Spelling :| (how == HexNothing ==> values[i] == 0) && labels[i] == Write(values[i], how);
      WrittenReads(values[i], how);
    }
    SplitJoin(labels, '.');
    IPv4.NumbersAll(labels, values);
    RangeIsParts(values);
    assert labels == labels[..|labels| - 1] + [labels[|labels| - 1]];
    NumericEnds(Join(labels, '.'), labels[..|labels| - 1], labels[|labels| - 1]);
  }

  /** However an address is written, with one to four labels, each in any radix and any letter case and with root dots
      or without, its host canonicalises to the four bytes in decimal. */
  lemma SpellingsCanonicalise(base: string, dots: string, labels: seq<string>, values: seq<nat>,
                              a: nat, b: nat, c: nat, d: nat, idna: ToASCII)
    requires RootDots(base, dots) && M.Spells(base, Join(labels, '.')) && Writes(labels, values) && InRange(values)
    requires a <= 0xFF && b <= 0xFF && c <= 0xFF && d <= 0xFF
    requires a * 0x100_0000 + b * 0x1_0000 + c * 0x100 + d == Denoted(values)
    ensures CanonicalNameHost(base + dots, idna) == Ok(Dotted(a, b, c, d))
  {
    hide M.Spells, CanonicalDomainHost, EndsInIPv4Number, IPv4.ParseHost, IPv4.Format, Dotted, IPv4.Quad, Denoted;
    hide RootDots;
    DomainOf(base, dots, idna);
    LabelsRead(labels, values);
    NotEmpty(labels, values);
    QuadIs(a, b, c, d, Denoted(values));
    FormatIsDotted(a, b, c, d);
  }

  lemma NotEmpty(labels: seq<string>, values: seq<nat>)
    requires Writes(labels, values) && InRange(values)
    ensures Join(labels, '.') != ""
  {
    hide Written, Write;
    assert Written(labels[0], values[0]);
    WrittenShape(labels[0], values[0]);
    if |labels| > 1 { JoinStep(labels[..|labels| - 1], labels[|labels| - 1], '.'); }
    assert |labels| > 1 ==> labels == labels[..|labels| - 1] + [labels[|labels| - 1]];
  }

  // ---- Every host ----

  /** One more character in the last label, or one more label. */
  lemma JoinMore(front: seq<string>, last: string, c: char)
    ensures Join(front + [last + [c]], '.') == Join(front + [last], '.') + [c]
    ensures Join(front + [last] + [""], '.') == Join(front + [last], '.') + ['.']
  {
    hide Join;
    JoinStep(front, last, '.');
    JoinStep(front, last + [c], '.');
    JoinStep(front + [last], "", '.');
    var text := Join(front + [last], '.');
    assert text + ['.'] + "" == text + ['.'];
    Regroup(Join(front, '.') + ['.'], last, [c]);
  }

  lemma Regroup(a: string, b: string, c: string)
    ensures a + (b + c) == a + b + c
  {
  }

  predicate NoDots(parts: seq<string>) {
    forall i | 0 <= i < |parts| :: '.' !in parts[i]
  }

  lemma NoDotsMore(parts: seq<string>, c: char)
    requires parts != [] && NoDots(parts)
    ensures NoDots(parts + [""])
    ensures c != '.' ==> NoDots(parts[..|parts| - 1] + [parts[|parts| - 1] + [c]])
  {
  }

  lemma {:induction false} JoinSplit(s: string)
    ensures Join(Split(s, '.'), '.') == s && NoDots(Split(s, '.'))
  {
    hide Join, Split, NoDots;
    if s != "" {
      var front, c := s[..|s| - 1], s[|s| - 1];
      JoinSplit(front);
      assert s == front + [c];
      SplitStep(front, c, '.');
      var before := Split(front, '.');
      assert before == before[..|before| - 1] + [before[|before| - 1]];
      JoinMore(before[..|before| - 1], before[|before| - 1], c);
      NoDotsMore(before, c);
    } else {
      NothingSplit();
    }
  }

  lemma NothingSplit()
    ensures Join(Split("", '.'), '.') == "" && NoDots(Split("", '.'))
  {
  }

  /** The text after the last dot. */
  function LastLabel(base: string): string {
    if base == "" || base[|base| - 1] == '.' then "" else LastLabel(base[..|base| - 1]) + [base[|base| - 1]]
  }

  lemma {:induction false} LastIsLast(s: string)
    ensures var parts := Split(s, '.'); parts[|parts| - 1] == LastLabel(s)
  {
    if s != "" {
      LastIsLast(s[..|s| - 1]);
    }
  }

  lemma {:induction false} LowerLast(s: string)
    ensures LastLabel(M.ToLower(s)) == M.ToLower(LastLabel(s))
  {
    if s != "" {
      var lower := M.ToLower(s);
      assert M.ToLower(s[..|s| - 1]) == lower[..|s| - 1];
      LowerLast(s[..|s| - 1]);
      assert lower[|s| - 1] == '.' <==> s[|s| - 1] == '.';
    }
  }

  lemma LowerNumeric(s: string)
    ensures Numeric(M.ToLower(s)) <==> Numeric(s)
  {
    var lower := M.ToLower(s);
    forall i | 0 <= i < |s|
      ensures HexDigit(lower[i]) <==> HexDigit(s[i])
      ensures '0' <= lower[i] <= '9' <==> '0' <= s[i] <= '9'
    {
      assert lower[i] == M.LowerChar(s[i]);
    }
    if |s| >= 2 {
      LowerDigit(s[0]);
      LowerDigit(s[1]);
      assert lower[0] == M.LowerChar(s[0]) && lower[1] == M.LowerChar(s[1]);
    }
  }

  lemma ParsedIsWritten(host: string) returns (values: seq<nat>)
    requires IPv4.ParseHost(host).Some? && M.ToLower(host) == host
    ensures InRange(values) && Writes(Split(host, '.'), values) && host == Join(Split(host, '.'), '.')
  {
    hide IPv4.Number, Write, IPv4.Address, IPv4.Parts;
    var labels := Split(host, '.');
    values := IPv4.Numbers(labels).value;
    RangeIsParts(values);
    JoinSplit(host);
    forall i | 0 <= i < |labels| ensures Written(labels[i], values[i]) {
      IPv4.NumbersAt(labels, i);
      LowerLabels(host, i);
      var how := ReadIsWritten(labels[i]);
    }
  }

  lemma {:induction false} LowerLabels(s: string, i: nat)
    requires M.ToLower(s) == s && i < |Split(s, '.')|
    ensures M.ToLower(Split(s, '.')[i]) == Split(s, '.')[i]
  {
    var part := Split(s, '.')[i];
    forall k | 0 <= k < |part| ensures M.LowerChar(part[k]) == part[k] {
      LabelChars(s, i, k);
    }
  }

  lemma {:induction false} LabelChars(s: string, i: nat, k: nat)
    requires i < |Split(s, '.')| && k < |Split(s, '.')[i]|
    ensures exists j | 0 <= j < |s| :: s[j] == Split(s, '.')[i][k]
    decreases |s|
  {
    var front := s[..|s| - 1];
    var before := Split(front, '.');
    if i < |before| && k < |before[i]| {
      LabelChars(front, i, k);
      var j :| 0 <= j < |front| && front[j] == before[i][k];
      assert s[j] == front[j];
    } else {
      assert s[|s| - 1] == Split(s, '.')[i][k];
    }
  }

  /** The host can be written as an address. */
  ghost predicate IsAddress(base: string) {
    exists labels: seq<string>, values: seq<nat> ::
      Writes(labels, values) && InRange(values) && M.Spells(base, Join(labels, '.'))
  }

  lemma NumericHost(base: string)
    ensures EndsInIPv4Number(M.ToLower(base)) <==> Numeric(LastLabel(base))
  {
    hide EndsInIPv4Number, Numeric, LastLabel, Split;
    var lower := M.ToLower(base);
    var parts := Split(lower, '.');
    LastIsLast(lower);
    LowerLast(base);
    LowerNumeric(LastLabel(base));
    assert parts == parts[..|parts| - 1] + [parts[|parts| - 1]];
    NumericEnds(lower, parts[..|parts| - 1], parts[|parts| - 1]);
  }

  lemma ParsedIff(base: string)
    ensures IPv4.ParseHost(M.ToLower(base)).Some? <==> IsAddress(base)
  {
    hide IPv4.ParseHost, Writes, M.Spells, EndsInIPv4Number;
    var lower := M.ToLower(base);
    if IPv4.ParseHost(lower).Some? {
      LowerTwice(base);
      var values := ParsedIsWritten(lower);
      assert M.Spells(base, Join(Split(lower, '.'), '.'));
    }
    if IsAddress(base) {
      var labels: seq<string>, values: seq<nat> :|
        Writes(labels, values) && InRange(values) && M.Spells(base, Join(labels, '.'));
      LabelsRead(labels, values);
    }
  }

  lemma LowerTwice(s: string)
    ensures M.ToLower(M.ToLower(s)) == M.ToLower(s)
  {
    forall i | 0 <= i < |s| ensures M.LowerChar(M.ToLower(s)[i]) == M.ToLower(s)[i] {
      assert M.ToLower(s)[i] == M.LowerChar(s[i]);
    }
  }

  /** What becomes of any ASCII host name without a colon: nothing but dots is refused; a name whose last label browsers
      do not take for a number is put in lower case without its root dots; any other is an address or refused. */
  lemma EveryNameCanonicalises(base: string, dots: string, idna: ToASCII)
    requires RootDots(base, dots)
    ensures var r := CanonicalNameHost(base + dots, idna);
      && (r == Err(Empty) <==> base == "")
      && (base != "" && !Numeric(LastLabel(base)) ==> r.Ok? && M.Spells(base, r.host))
      && (base != "" && Numeric(LastLabel(base)) ==> (r.Ok? <==> IsAddress(base)))
      && (r.Err? ==> r.fault in {Empty, BadIPv4})
  {
    hide CanonicalDomainHost, EndsInIPv4Number, IPv4.ParseHost, IPv4.Format, IPv4.Quad, RootDots, M.Spells, IsAddress;
    hide Numeric, LastLabel;
    DomainOf(base, dots, idna);
    NumericHost(base);
    ParsedIff(base);
  }

  /** Every ASCII name without a colon is such a name with root dots. */
  lemma {:induction false} NameWithDots(hostname: string) returns (base: string, dots: string)
    requires ASCII(hostname) && ':' !in hostname
    ensures hostname == base + dots && RootDots(base, dots)
  {
    if hostname != "" && hostname[|hostname| - 1] == '.' {
      base, dots := NameWithDots(hostname[..|hostname| - 1]);
      dots := dots + ".";
    } else {
      base, dots := hostname, "";
    }
  }

  /** A name outside ASCII is what IDNA conversion makes of it, or refused. */
  lemma ConvertedCanonicalises(hostname: string, idna: ToASCII)
    requires !ASCII(hostname)
    ensures var r, converted := CanonicalNameHost(hostname, idna), idna(hostname);
      if converted == None then r == Err(NotPunycode)
      else ASCII(converted.value) ==> r == CanonicalNameHost(converted.value, idna)
  {
    hide IPv4.ParseHost, EndsInIPv4Number, TrimRightDots, M.ToLower, ASCII;
  }
}
