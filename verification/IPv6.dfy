/** The IPv6 serializer of the configuration against a reader that expands the compressed run. */
module IPv6 {
  import opened Numerals

  type Piece = n: nat | n < 0x1_0000

  predicate Zeros(pieces: seq<Piece>, from: int, length: int) {
    0 <= from && from + length <= |pieces| && forall k | from <= k < from + length :: pieces[k] == 0
  }

  /** The first among the longest runs of at least two zero pieces; index -1 when there is none. */
  ghost predicate BestRun(pieces: seq<Piece>, index: int, length: int) {
    if index < 0 then forall from :: !Zeros(pieces, from, 2)
    else
      && length >= 2 && Zeros(pieces, index, length)
      && (forall from, more | more > length :: !Zeros(pieces, from, more))
      && forall from | Zeros(pieces, from, length) :: index <= from
  }

  function Hexed(pieces: seq<Piece>): (texts: seq<string>)
    ensures |texts| == |pieces| && forall i | 0 <= i < |pieces| :: texts[i] == Spelled(pieces[i], 16)
  {
    seq(|pieces|, i requires 0 <= i < |pieces| => Spelled(pieces[i], 16))
  }

  function Colons(pieces: seq<Piece>): string {
    Join(Hexed(pieces), ':')
  }

  /** Section 3.6 of the WHATWG URL Standard: the run is written as two colons. */
  function Written(pieces: seq<Piece>, index: int, length: int): string
    requires index >= 0 ==> 0 <= length && index + length <= |pieces|
  {
    if index < 0 then Colons(pieces) else Colons(pieces[..index]) + "::" + Colons(pieces[index + length..])
  }

  ghost predicate Serializes(text: string, pieces: seq<Piece>) {
    exists index, length :: BestRun(pieces, index, length) && text == Written(pieces, index, length)
  }

  // ---- The serializer ----

  /** What the scan knows before piece `i`: the best finished run, and the run that reaches `i`. */
  ghost predicate Scanned(pieces: seq<Piece>, i: nat, best: int, bestLength: int, current: int, length: int)
    requires i <= |pieces|
  {
    && BestSoFar(pieces, i - length, best, bestLength)
    && 0 <= length <= i && Zeros(pieces, i - length, length)
    && (current < 0 <==> length == 0) && (current >= 0 ==> current == i - length)
    && (length < i ==> pieces[i - length - 1] != 0)
  }

  /** The best of the runs that end at or before `end`, or index -1 and length 1. */
  ghost predicate BestSoFar(pieces: seq<Piece>, end: int, best: int, bestLength: int) {
    && (if best < 0 then best == -1 && bestLength == 1
        else bestLength >= 2 && Zeros(pieces, best, bestLength) && best + bestLength <= end)
    && (forall from, more | more > bestLength && from + more <= end :: !Zeros(pieces, from, more))
    && (best >= 0 ==> forall from | Zeros(pieces, from, bestLength) && from + bestLength <= end :: best <= from)
  }

  lemma RunEnds(pieces: seq<Piece>, i: nat, best: int, bestLength: int, current: int, length: int)
    requires i <= |pieces| && Scanned(pieces, i, best, bestLength, current, length) && (i < |pieces| ==> pieces[i] != 0)
    ensures length > bestLength ==> BestSoFar(pieces, i, current, length)
    ensures length <= bestLength ==> BestSoFar(pieces, i, best, bestLength)
  {
    forall from, more | 0 < more && from + more <= i && Zeros(pieces, from, more) && from + more > i - length
      ensures from >= i - length && more <= length
    {
    }
  }

  method FindRun(pieces: seq<Piece>) returns (bestIndex: int, bestLength: int)
    requires |pieces| == 8
    ensures BestRun(pieces, bestIndex, bestLength) && bestLength > 0 && (bestIndex >= 0 ==> bestIndex + bestLength <= 8)
  {
    bestIndex, bestLength := -1, 1;
    var currentIndex, currentLength := -1, 0;
    for index := 0 to |pieces|
      invariant Scanned(pieces, index, bestIndex, bestLength, currentIndex, currentLength)
    {
      if pieces[index] != 0 {
        RunEnds(pieces, index, bestIndex, bestLength, currentIndex, currentLength);
        if currentLength > bestLength {
          bestIndex, bestLength := currentIndex, currentLength;
        }
        currentIndex, currentLength := -1, 0;
        PastNonzero(pieces, index, bestIndex, bestLength);
        continue;
      }
      if currentIndex < 0 {
        currentIndex := index;
      }
      currentLength := currentLength + 1;
    }
    RunEnds(pieces, |pieces|, bestIndex, bestLength, currentIndex, currentLength);
    if currentLength > bestLength {
      bestIndex, bestLength := currentIndex, currentLength;
    }
  }

  lemma PastNonzero(pieces: seq<Piece>, i: nat, best: int, bestLength: int)
    requires i < |pieces| && pieces[i] != 0 && BestSoFar(pieces, i, best, bestLength)
    ensures BestSoFar(pieces, i + 1, best, bestLength)
  {
    forall from, more | 0 < more && from + more <= i + 1 && Zeros(pieces, from, more) ensures from + more <= i {
    }
  }

  /** The pieces from `from` up to `end`, each followed by a colon but the eighth. */
  function Listed(pieces: seq<Piece>, from: nat, end: nat): string
    requires from <= end <= |pieces| == 8
  {
    if from == end then ""
    else Listed(pieces, from, end - 1) + Spelled(pieces[end - 1], 16) + if end == 8 then "" else ":"
  }

  /** The text before the turn of the writing loop at piece `i`, which jumps over the run. */
  function Built(pieces: seq<Piece>, best: int, length: nat, i: nat): string
    requires |pieces| == 8 && i <= 8 && (best >= 0 ==> best + length <= 8) && (0 <= best < i ==> best + length <= i)
  {
    if best < 0 || i <= best then Listed(pieces, 0, i)
    else Listed(pieces, 0, best) + (if best == 0 then "::" else ":") + Listed(pieces, best + length, i)
  }

  lemma BuiltMore(pieces: seq<Piece>, best: int, length: nat, i: nat)
    requires |pieces| == 8 && i < 8 && i != best && (best >= 0 ==> best + length <= 8)
      && (0 <= best < i ==> best + length <= i)
    ensures Built(pieces, best, length, i + 1)
         == Built(pieces, best, length, i) + Spelled(pieces[i], 16) + if i == 7 then "" else ":"
  {
    if 0 <= best < i {
      var front := Listed(pieces, 0, best) + (if best == 0 then "::" else ":");
      var piece, colon := Spelled(pieces[i], 16), if i == 7 then "" else ":";
      assert front + (Listed(pieces, best + length, i) + piece + colon)
        == front + Listed(pieces, best + length, i) + piece + colon;
    }
  }

  lemma BuiltJump(pieces: seq<Piece>, best: nat, length: nat)
    requires |pieces| == 8 && 0 < length && best + length <= 8
    ensures Built(pieces, best, length, best + length)
         == Built(pieces, best, length, best) + if best == 0 then "::" else ":"
  {
    assert Listed(pieces, best + length, best + length) == "";
  }

  lemma BuiltAll(pieces: seq<Piece>, best: int, length: nat)
    requires |pieces| == 8 && (best >= 0 ==> 0 < length && best + length <= 8)
    ensures Built(pieces, best, length, 8) == Written(pieces, best, length)
  {
    if best < 0 {
      ListedEnd(pieces, 0);
      assert pieces[0..] == pieces;
    } else {
      ListedEnd(pieces, best + length);
      if best > 0 {
        ListedFront(pieces, best);
        assert Colons(pieces[..best]) + ":" + ":" == Colons(pieces[..best]) + "::";
      }
    }
  }

  method SerializeIPv6(pieces: seq<Piece>) returns (text: string)
    requires |pieces| == 8
    ensures Serializes(text, pieces)
  {
    hide Built, Written, Listed;
    var bestIndex, bestLength := FindRun(pieces);
    text := "";
    var i := 0;
    NothingBuilt(pieces, bestIndex, bestLength);
    while i < |pieces|
      invariant 0 <= i <= |pieces| && (0 <= bestIndex < i ==> bestIndex + bestLength <= i)
      invariant text == Built(pieces, bestIndex, bestLength, i)
    {
      if i == bestIndex {
        BuiltJump(pieces, bestIndex, bestLength);
        if i == 0 {
          text := text + ":";
          assert text + ":" == Built(pieces, bestIndex, bestLength, i) + "::";
        }
        text := text + ":";
        i := i + bestLength;
        continue;
      }
      BuiltMore(pieces, bestIndex, bestLength, i);
      text := text + Spelled(pieces[i], 16);
      if i != 7 {
        text := text + ":";
      } else {
        assert text + "" == text;
      }
      i := i + 1;
    }
    BuiltAll(pieces, bestIndex, bestLength);
  }

  lemma NothingBuilt(pieces: seq<Piece>, best: int, length: nat)
    requires |pieces| == 8 && (best >= 0 ==> best + length <= 8)
    ensures Built(pieces, best, length, 0) == ""
  {
  }

  lemma {:induction false} ListedFront(pieces: seq<Piece>, end: nat)
    requires |pieces| == 8 && 0 < end < 8
    ensures Listed(pieces, 0, end) == Colons(pieces[..end]) + ":"
    decreases end
  {
    var texts := Hexed(pieces[..end]);
    if end == 1 {
      assert Listed(pieces, 0, 0) == "";
    } else {
      ListedFront(pieces, end - 1);
      assert texts[..end - 1] == Hexed(pieces[..end - 1]);
    }
  }

  lemma ListedEnd(pieces: seq<Piece>, from: nat)
    requires |pieces| == 8 && from <= 8
    ensures Listed(pieces, from, 8) == Colons(pieces[from..])
  {
    if from < 8 {
      ListedMiddle(pieces, from, 7);
      var texts := Hexed(pieces[from..]);
      assert texts[..|texts| - 1] == Hexed(pieces[from..7]);
    }
  }

  lemma ColonsMore(pieces: seq<Piece>, last: Piece)
    ensures Colons(pieces + [last])
         == if pieces == [] then Spelled(last, 16) else Colons(pieces) + ":" + Spelled(last, 16)
  {
    hide Join, Spelled;
    assert Hexed(pieces + [last]) == Hexed(pieces) + [Spelled(last, 16)];
    JoinStep(Hexed(pieces), Spelled(last, 16), ':');
  }

  lemma ListedStep(pieces: seq<Piece>, from: nat, end: nat)
    requires |pieces| == 8 && from < end <= 7
    ensures Listed(pieces, from, end) == Listed(pieces, from, end - 1) + Spelled(pieces[end - 1], 16) + ":"
    ensures Listed(pieces, from, from) == ""
  {
  }

  lemma {:induction false} ListedMiddle(pieces: seq<Piece>, from: nat, end: nat)
    requires |pieces| == 8 && from <= end <= 7
    ensures Listed(pieces, from, end) == if from == end then "" else Colons(pieces[from..end]) + ":"
    decreases end
  {
    if from < end {
      hide Listed, Colons, Spelled;
      ListedMiddle(pieces, from, end - 1);
      ListedStep(pieces, from, end);
      var front, last := pieces[from..end - 1], pieces[end - 1];
      assert pieces[from..end] == front + [last];
      ColonsMore(front, last);
      assert front == [] <==> from == end - 1;
      assert "" + Spelled(last, 16) == Spelled(last, 16);
    }
  }

  // ---- Reading it back ----

  /** One piece: one to four hexadecimal digits. */
  function ReadPiece(text: string): Option<Piece> {
    if 1 <= |text| <= 4 && AllDigits(text, 16) && Positional(text, 16) < 0x1_0000
    then Some(Positional(text, 16)) else None
  }

  function ReadPieces(texts: seq<string>): Option<seq<Piece>> {
    if texts == [] then Some([])
    else
      var front, last := ReadPieces(texts[..|texts| - 1]), ReadPiece(texts[|texts| - 1]);
      if front.None? || last.None? then None else Some(front.value + [last.value])
  }

  function ReadColons(text: string): Option<seq<Piece>> {
    if text == "" then Some([]) else ReadPieces(Split(text, ':'))
  }

  /** Where two colons first stand together, or the length of the text. */
  function DoubleColon(text: string): (at: nat)
    ensures at <= |text|
    ensures at < |text| ==> at + 1 < |text| && text[at] == ':' && text[at + 1] == ':'
  {
    if |text| < 2 then |text|
    else if text[0] == ':' && text[1] == ':' then 0
    else 1 + DoubleColon(text[1..])
  }

  function Zeroed(count: nat): (pieces: seq<Piece>)
    ensures |pieces| == count && forall i | 0 <= i < count :: pieces[i] == 0
  {
    seq(count, _ => 0)
  }

  /** Section 2.2 of RFC 4291: eight pieces, or fewer with one "::" that stands for the missing zeros. */
  function Read(text: string): Option<seq<Piece>> {
    var at := DoubleColon(text);
    if at == |text| then
      var all := ReadColons(text);
      if all.Some? && |all.value| == 8 then all else None
    else
      var front, back := ReadColons(text[..at]), ReadColons(text[at + 2..]);
      if front.None? || back.None? || |front.value| + |back.value| > 7 then None
      else Some(front.value + Zeroed(8 - |front.value| - |back.value|) + back.value)
  }

  lemma SpelledPiece(n: Piece)
    ensures ReadPiece(Spelled(n, 16)) == Some(n) && ':' !in Spelled(n, 16)
  {
    SpelledIsPositional(n, 16);
    SpelledChars(n, 16);
    PieceLength(n);
  }

  lemma PieceLength(n: Piece)
    ensures |Spelled(n, 16)| <= 4
  {
    assert n / 16 < 0x1000 && n / 16 / 16 < 0x100 && n / 16 / 16 / 16 < 0x10;
    assert |Spelled(n / 16 / 16 / 16, 16)| == 1;
    assert |Spelled(n / 16 / 16, 16)| <= 2;
    assert |Spelled(n / 16, 16)| <= 3;
  }

  lemma {:induction false} HexedRead(pieces: seq<Piece>)
    ensures ReadPieces(Hexed(pieces)) == Some(pieces)
  {
    if pieces != [] {
      var front, last := pieces[..|pieces| - 1], pieces[|pieces| - 1];
      HexedRead(front);
      SpelledPiece(last);
      assert Hexed(pieces)[..|pieces| - 1] == Hexed(front) && front + [last] == pieces;
    } else {
      assert Hexed(pieces) == [];
    }
  }

  lemma ColonsRead(pieces: seq<Piece>)
    ensures ReadColons(Colons(pieces)) == Some(pieces)
  {
    if pieces == [] {
      assert Hexed(pieces) == [];
    } else {
      ColonsPlain(pieces);
      forall i | 0 <= i < |pieces| ensures ':' !in Hexed(pieces)[i] { SpelledPiece(pieces[i]); }
      SplitJoin(Hexed(pieces), ':');
      HexedRead(pieces);
    }
  }

  /** A colon list neither starts nor ends with a colon and never doubles one. */
  predicate Single(text: string) {
    && (text != "" ==> text[0] != ':' && text[|text| - 1] != ':')
    && forall i | 0 <= i < |text| - 1 :: !(text[i] == ':' && text[i + 1] == ':')
  }

  lemma {:induction false} ColonsPlain(pieces: seq<Piece>)
    ensures Single(Colons(pieces)) && (pieces != [] ==> Colons(pieces) != "")
  {
    if pieces == [] {
      assert Hexed(pieces) == [];
    } else {
      var front, last := pieces[..|pieces| - 1], Spelled(pieces[|pieces| - 1], 16);
      SpelledPiece(pieces[|pieces| - 1]);
      assert Single(last) by {
        forall i | 0 <= i < |last| ensures last[i] != ':' { assert last[i] in last; }
      }
      assert Hexed(pieces)[..|pieces| - 1] == Hexed(front);
      if front != [] {
        ColonsPlain(front);
        Chained(Colons(front), last);
      }
    }
  }

  lemma Chained(front: string, last: string)
    requires Single(front) && Single(last) && front != "" && last != ""
    ensures Single(front + ":" + last)
  {
  }

  lemma {:induction false} NoDouble(text: string)
    requires forall i | 0 <= i < |text| - 1 :: !(text[i] == ':' && text[i + 1] == ':')
    ensures DoubleColon(text) == |text|
  {
    if |text| >= 2 {
      NoDouble(text[1..]);
    }
  }

  lemma {:induction false} FirstDouble(front: string, back: string)
    requires front != "" ==> front[|front| - 1] != ':'
    requires forall i | 0 <= i < |front| - 1 :: !(front[i] == ':' && front[i + 1] == ':')
    ensures DoubleColon(front + "::" + back) == |front|
    decreases |front|
  {
    var text := front + "::" + back;
    if front != "" {
      assert text[1..] == front[1..] + "::" + back;
      FirstDouble(front[1..], back);
    }
  }

  lemma WrittenRead(pieces: seq<Piece>, index: int, length: int)
    requires |pieces| == 8 && BestRun(pieces, index, length)
    ensures Read(Written(pieces, index, length)) == Some(pieces)
  {
    hide Colons, ReadColons, DoubleColon;
    if index < 0 {
      ColonsPlain(pieces);
      NoDouble(Colons(pieces));
      ColonsRead(pieces);
    } else {
      var front, back := pieces[..index], pieces[index + length..];
      var text := Colons(front) + "::" + Colons(back);
      ColonsPlain(front);
      FirstDouble(Colons(front), Colons(back));
      ColonsRead(front);
      ColonsRead(back);
      assert text[..|Colons(front)|] == Colons(front) && text[|Colons(front)| + 2..] == Colons(back);
      assert front + Zeroed(length) + back == pieces;
    }
  }

  /** Reading the serialized text gives back the eight pieces. */
  lemma RoundTrip(text: string, pieces: seq<Piece>)
    requires |pieces| == 8 && Serializes(text, pieces)
    ensures Read(text) == Some(pieces)
  {
    var index, length :| BestRun(pieces, index, length) && text == Written(pieces, index, length);
    WrittenRead(pieces, index, length);
  }

  /** Distinct addresses have distinct texts. */
  lemma TextsDiffer(text: string, a: seq<Piece>, b: seq<Piece>)
    requires |a| == 8 && |b| == 8 && Serializes(text, a) && Serializes(text, b)
    ensures a == b
  {
    RoundTrip(text, a);
    RoundTrip(text, b);
  }

  /** An address has one text. */
  lemma OneText(text: string, other: string, pieces: seq<Piece>)
    requires |pieces| == 8 && Serializes(text, pieces) && Serializes(other, pieces)
    ensures text == other
  {
    var i, m :| BestRun(pieces, i, m) && text == Written(pieces, i, m);
    var j, n :| BestRun(pieces, j, n) && other == Written(pieces, j, n);
    OneBestRun(pieces, i, m, j, n);
  }

  /** The compressed run is determined by the address, so the text is too. */
  lemma OneBestRun(pieces: seq<Piece>, i: int, m: int, j: int, n: int)
    requires |pieces| == 8 && BestRun(pieces, i, m) && BestRun(pieces, j, n)
    ensures (i < 0 && j < 0) || (i == j && m == n)
  {
    if i >= 0 && j < 0 {
      assert Zeros(pieces, i, 2);
    }
    if j >= 0 && i < 0 {
      assert Zeros(pieces, j, 2);
    }
  }

  // ---- What a readable text is made of ----

  predicate LiteralChar(c: char) {
    c == ':' || DigitValue(c) < 16
  }

  lemma {:induction false} SplitChars(s: string, sep: char)
    ensures forall c | c in s && c != sep :: exists part :: part in Split(s, sep) && c in part
    ensures sep !in s ==> Split(s, sep) == [s]
  {
    if s != "" {
      var front, last := s[..|s| - 1], s[|s| - 1];
      SplitChars(front, sep);
      var before, all := Split(front, sep), Split(s, sep);
      assert s == front + [last] && last in s;
      forall c | c in s && c != sep ensures exists part :: part in all && c in part {
        if c in front {
          var part :| part in before && c in part;
          KeptPart(before, all, last, sep, part, c);
        } else {
          assert c in all[|all| - 1];
        }
      }
    }
  }

  lemma KeptPart(before: seq<string>, all: seq<string>, last: char, sep: char, part: string, c: char)
    requires before != [] && part in before && c in part
    requires all == if last == sep then before + [""] else before[..|before| - 1] + [before[|before| - 1] + [last]]
    ensures exists other :: other in all && c in other
  {
    var i :| 0 <= i < |before| && before[i] == part;
    assert c in all[i];
  }

  lemma {:induction false} PiecesChars(texts: seq<string>)
    requires ReadPieces(texts).Some?
    ensures |ReadPieces(texts).value| == |texts| && forall text | text in texts :: AllDigits(text, 16)
  {
    if texts != [] {
      PiecesChars(texts[..|texts| - 1]);
      assert texts == texts[..|texts| - 1] + [texts[|texts| - 1]];
    }
  }

  lemma ColonsChars(text: string)
    requires ReadColons(text).Some?
    ensures forall c | c in text :: LiteralChar(c)
    ensures ':' !in text ==> |ReadColons(text).value| <= 1
  {
    if text != "" {
      SplitChars(text, ':');
      PiecesChars(Split(text, ':'));
      forall c | c in text ensures LiteralChar(c) {
        if c != ':' {
          var part :| part in Split(text, ':') && c in part;
        }
      }
    }
  }

  lemma ReadableChars(text: string)
    requires Read(text).Some?
    ensures ':' in text && forall c | c in text :: LiteralChar(c)
  {
    hide ReadColons, LiteralChar;
    var at := DoubleColon(text);
    if at == |text| {
      ColonsChars(text);
    } else {
      ColonsChars(text[..at]);
      ColonsChars(text[at + 2..]);
      CutChars(text, at);
    }
  }

  lemma CutChars(text: string, at: nat)
    requires at + 1 < |text| && text[at] == text[at + 1] == ':'
    requires forall c | c in text[..at] || c in text[at + 2..] :: LiteralChar(c)
    ensures ':' in text && forall c | c in text :: LiteralChar(c)
  {
    assert text == text[..at] + "::" + text[at + 2..];
  }
}
