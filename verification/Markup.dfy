/** HTML tags as the theme checks see them: the tokens that `browserHTMLWalker.next` hands on, with validated
    tag names and attribute maps. The tokenizer before it is not part of this model. */
module Markup {
  type Attributes = map<string, string>

  datatype Token =
    | Text(text: string)
    | Start(name: string, attributes: Attributes)
    | SelfClosing(name: string, attributes: Attributes)
    | End(name: string)
    | Other

  datatype Outcome<+T, +E> = Pass(value: T) | Fail(error: E)

  predicate IsVoid(name: string) {
    name in {"area", "base", "br", "col", "embed", "hr", "img", "input", "link", "meta", "source", "track", "wbr"}
  }

  /** Reading a missing key of a Go map gives the empty string. */
  function Attr(attributes: Attributes, key: string): string {
    if key in attributes then attributes[key] else ""
  }

  /** Simple case folding as far as it meets ASCII: two letters outside ASCII fold to an ASCII one. */
  function FoldChar(c: char): char {
    if 'A' <= c <= 'Z' then (c as int + 32) as char
    else if c == '\U{17F}' then 's'
    else if c == '\U{212A}' then 'k'
    else c
  }

  function Fold(s: string): (folded: string)
    ensures |folded| == |s|
  {
    seq(|s|, i requires 0 <= i < |s| => FoldChar(s[i]))
  }

  /** `strings.EqualFold` against ASCII names. */
  predicate EqualFold(a: string, b: string) {
    Fold(a) == Fold(b)
  }

  /** `unicode.ToLower` as far as it meets ASCII. */
  function LowerChar(c: char): char {
    if 'A' <= c <= 'Z' then (c as int + 32) as char
    else if c == '\U{130}' then 'i'
    else if c == '\U{212A}' then 'k'
    else c
  }

  function ToLower(s: string): (lower: string)
    ensures |lower| == |s|
  {
    seq(|s|, i requires 0 <= i < |s| => LowerChar(s[i]))
  }

  /** A template that browsers turn into a live shadow root. */
  predicate Shadow(attributes: Attributes) {
    ToLower(Attr(attributes, "shadowrootmode")) in {"open", "closed"}
  }

  // ---- The same, said of the characters ----

  /** The same letter whatever its case; LATIN SMALL LETTER LONG S is an s and KELVIN SIGN a k. */
  predicate SameLetter(c: char, d: char)
    ensures SameLetter(c, d) <==> FoldChar(c) == FoldChar(d)
  {
    || c == d
    || ('A' <= c <= 'Z' && 'a' <= d <= 'z' && c - 'A' == d - 'a')
    || ('a' <= c <= 'z' && 'A' <= d <= 'Z' && c - 'a' == d - 'A')
    || (c in "Ss\U{17F}" && d in "Ss\U{17F}")
    || (c in "Kk\U{212A}" && d in "Kk\U{212A}")
  }

  /** Letter by letter the same. */
  predicate SameName(a: string, b: string)
    ensures SameName(a, b) <==> EqualFold(a, b)
  {
    FoldedLetters(a, b);
    |a| == |b| && forall i | 0 <= i < |a| :: SameLetter(a[i], b[i])
  }

  lemma FoldedLetters(a: string, b: string)
    ensures EqualFold(a, b) <==> |a| == |b| && forall i | 0 <= i < |a| :: FoldChar(a[i]) == FoldChar(b[i])
  {
    if |a| == |b| && forall i | 0 <= i < |a| :: FoldChar(a[i]) == FoldChar(b[i]) {
      assert Fold(a) == Fold(b);
    }
    if EqualFold(a, b) {
      assert forall i | 0 <= i < |a| :: FoldChar(a[i]) == Fold(a)[i] && Fold(b)[i] == FoldChar(b[i]);
    }
  }

  /** Letter by letter the word or a capital of it; LATIN CAPITAL LETTER I WITH DOT ABOVE is an i, KELVIN SIGN a k. */
  predicate Spells(s: string, word: string)
    ensures Spells(s, word) <==> ToLower(s) == word
  {
    LoweredLetters(s, word);
    |s| == |word| && forall i | 0 <= i < |s| ::
      || (s[i] == word[i] && !('A' <= s[i] <= 'Z') && s[i] !in "\U{130}\U{212A}")
      || ('A' <= s[i] <= 'Z' && 'a' <= word[i] <= 'z' && s[i] - 'A' == word[i] - 'a')
      || (s[i] == '\U{130}' && word[i] == 'i') || (s[i] == '\U{212A}' && word[i] == 'k')
  }

  lemma LoweredLetters(s: string, word: string)
    ensures ToLower(s) == word <==> |s| == |word| && forall i | 0 <= i < |s| :: LowerChar(s[i]) == word[i]
  {
    if |s| == |word| && forall i | 0 <= i < |s| :: LowerChar(s[i]) == word[i] {
      assert ToLower(s) == word;
    }
  }
}
