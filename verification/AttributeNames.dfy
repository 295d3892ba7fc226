/** `validateRawHTMLAttributeNames`: a scan over the raw text of a tag, against a printer of tags. Lowercasing is a
    parameter, because that of Go knows all letters. */
module AttributeNames {

  datatype Verdict = Accepted | Repeated | EmptyName | NoValue | Unterminated

  type CharTest = char -> bool

  type Lowercase = string -> string

  predicate Blank(c: char) {
    c in {' ', '\t', '\r', '\n', '\U{C}'}
  }

  predicate Separator(c: char) {
    Blank(c) || c == '/'
  }

  predicate NameChar(c: char) {
    !Blank(c) && c != '=' && c != '/' && c != '>'
  }

  predicate TagChar(c: char) {
    !Blank(c) && c != '/' && c != '>'
  }

  predicate BareChar(c: char) {
    !Blank(c) && c != '>'
  }

  function DropWhile(s: string, p: CharTest): (rest: string)
    ensures |rest| <= |s|
  {
    if s != "" && p(s[0]) then DropWhile(s[1..], p) else s
  }

  /** The attributes after the tag name; `seen` are the lowercased names so far. */
  function Scan(s: string, lower: Lowercase, seen: set<string>): Verdict
    decreases |s|, 0
  {
    var start := DropWhile(s, Separator);
    if start == "" || start[0] == '>' then Accepted
    else
      var afterName := DropWhile(start, NameChar);
      var name := start[..|start| - |afterName|];
      if name == "" then EmptyName
      else if lower(name) in seen then Repeated
      else ScanValue(afterName, lower, seen + {lower(name)})
  }

  /** What follows an attribute's name. */
  function ScanValue(afterName: string, lower: Lowercase, names: set<string>): Verdict
    decreases |afterName|, 1
  {
    var rest := DropWhile(afterName, Blank);
    if rest == "" || rest[0] != '=' then Scan(rest, lower, names)
    else
      var value := DropWhile(rest[1..], Blank);
      if value == "" then NoValue
      else if value[0] == '\'' || value[0] == '\"' then
        var close := DropWhile(value[1..], c => c != value[0]);
        if close == "" then Unterminated else Scan(close[1..], lower, names)
      else Scan(DropWhile(value, BareChar), lower, names)
  }

  function Validate(raw: string, lower: Lowercase): Verdict {
    if raw == "" then Accepted else Scan(DropWhile(raw[1..], TagChar), lower, {})
  }

  /** The loop `for offset < len(raw) && p(raw[offset]) { offset++ }`. */
  method Skip(raw: string, from: nat, p: CharTest) returns (offset: nat)
    requires from <= |raw|
    ensures from <= offset <= |raw| && raw[offset..] == DropWhile(raw[from..], p)
  {
    offset := from;
    while offset < |raw| && p(raw[offset])
      invariant from <= offset <= |raw|
      invariant DropWhile(raw[offset..], p) == DropWhile(raw[from..], p)
    {
      assert raw[offset..][1..] == raw[offset + 1..];
      offset := offset + 1;
    }
  }

  method ValidateRawHTMLAttributeNames(raw: string, lower: Lowercase) returns (verdict: Verdict)
    ensures verdict == Validate(raw, lower)
  {
    hide DropWhile, Separator, NameChar, Blank, BareChar, TagChar;
    if |raw| < 1 { return Accepted; }
    var offset := Skip(raw, 1, TagChar);
    var seen := {};
    while offset < |raw|
      invariant offset <= |raw|
      invariant Validate(raw, lower) == Scan(raw[offset..], lower, seen)
      decreases |raw| - offset
    {
      ghost var start := offset;
      offset := Skip(raw, offset, Separator);
      if offset >= |raw| || raw[offset] == '>' { return Accepted; }
      var nameStart := offset;
      offset := Skip(raw, offset, NameChar);
      assert raw[nameStart..offset] == raw[nameStart..][..|raw[nameStart..]| - |raw[offset..]|];
      if nameStart == offset { return EmptyName; }
      var name := lower(raw[nameStart..offset]);
      if name in seen { return Repeated; }
      seen := seen + {name};
      offset := Skip(raw, offset, Blank);
      if offset >= |raw| || raw[offset] != '=' { continue; }
      offset := offset + 1;
      assert raw[offset - 1..][1..] == raw[offset..];
      offset := Skip(raw, offset, Blank);
      if offset >= |raw| { return NoValue; }
      if raw[offset] == '\'' || raw[offset] == '\"' {
        var quote := raw[offset];
        offset := offset + 1;
        assert raw[offset - 1..][1..] == raw[offset..];
        offset := Skip(raw, offset, c => c != quote);
        if offset >= |raw| { return Unterminated; }
        offset := offset + 1;
        assert raw[offset - 1..][1..] == raw[offset..];
        continue;
      }
      offset := Skip(raw, offset, BareChar);
    }
    verdict := Accepted;
  }

  // ---- A printer ----

  datatype Value = Absent | Bare(text: string) | Quoted(quote: char, text: string)

  /** One printed attribute; the gaps stand before the name and around the equals sign. */
  datatype Printed = Printed(gap: string, name: string, left: string, right: string, value: Value)

  /** What stands after the last complete attribute: the end of the tag, the end of the text, an equals sign without a
      name, a name and an equals sign without a value, or a value whose quote is not closed. */
  datatype Tail =
    | Closed(gap: string, after: string)
    | Cut(gap: string)
    | Nameless(gap: string, after: string)
    | Valueless(gap: string, name: string, left: string, right: string)
    | Unclosed(gap: string, name: string, left: string, right: string, quote: char, text: string)

  predicate AllOf(s: string, p: CharTest) {
    forall c | c in s :: p(c)
  }

  predicate Space(c: char) {
    c == ' ' || c == '\t' || c == '\r' || c == '\n' || c == '\U{C}'
  }

  /** What may stand between attributes, and before the end of the tag. */
  predicate Filler(c: char) {
    Space(c) || c == '/'
  }

  predicate Word(s: string, never: string) {
    forall c | c in s :: !Space(c) && c !in never
  }

  predicate Quote(c: char) {
    c == '\'' || c == '\"'
  }

  function PrintValue(a: Printed): string {
    match a.value
    case Absent => ""
    case Bare(text) => a.left + ("=" + (a.right + text))
    case Quoted(quote, text) => a.left + ("=" + (a.right + ([quote] + (text + [quote]))))
  }

  function Print(a: Printed): string {
    a.gap + (a.name + PrintValue(a))
  }

  function PrintTail(tail: Tail): string {
    match tail
    case Closed(gap, after) => gap + (">" + after)
    case Cut(gap) => gap
    case Nameless(gap, after) => gap + ("=" + after)
    case Valueless(gap, name, left, right) => gap + (name + (left + ("=" + right)))
    case Unclosed(gap, name, left, right, quote, text) => gap + (name + (left + ("=" + (right + ([quote] + text)))))
  }

  function PrintAll(attributes: seq<Printed>, tail: Tail): string {
    if attributes == [] then PrintTail(tail) else Print(attributes[0]) + PrintAll(attributes[1..], tail)
  }

  /** After spaces, if any, comes an equals sign. */
  predicate EqualsNext(rest: string) {
    rest != "" && (rest[0] == '=' || (Space(rest[0]) && EqualsNext(rest[1..])))
  }

  /** What follows a tag name does not prolong it. */
  predicate EndsTag(rest: string) {
    rest == "" || Filler(rest[0]) || rest[0] == '>'
  }

  /** What follows an attribute prolongs neither its name nor its value, nor does it give it one. */
  predicate Stops(value: Value, rest: string) {
    match value
    case Absent => EndsTag(rest) && !EqualsNext(rest)
    case Bare(text) => if text == "" then rest != "" && rest[0] == '>'
                       else rest == "" || Space(rest[0]) || rest[0] == '>'
    case Quoted(_, _) => true
  }

  predicate LegalValue(value: Value) {
    match value
    case Absent => true
    case Bare(text) => Word(text, ">") && (text != "" ==> !Quote(text[0]))
    case Quoted(quote, text) => Quote(quote) && quote !in text
  }

  predicate LegalName(gap: string, name: string, left: string, right: string) {
    && AllOf(gap, Filler) && AllOf(left, Space) && AllOf(right, Space) && name != "" && Word(name, "=/>")
  }

  predicate LegalTail(tail: Tail) {
    match tail
    case Valueless(gap, name, left, right) => LegalName(gap, name, left, right)
    case Unclosed(gap, name, left, right, quote, text) =>
      LegalName(gap, name, left, right) && Quote(quote) && quote !in text
    case _ => AllOf(tail.gap, Filler)
  }

  predicate Legal(attributes: seq<Printed>, tail: Tail) {
    if attributes == [] then LegalTail(tail)
    else
      var a := attributes[0];
      && LegalName(a.gap, a.name, a.left, a.right) && LegalValue(a.value)
      && Stops(a.value, PrintAll(attributes[1..], tail)) && Legal(attributes[1..], tail)
  }

  /** The names in their order, that of the tail included. */
  function Names(attributes: seq<Printed>, tail: Tail): seq<string> {
    if attributes != [] then [attributes[0].name] + Names(attributes[1..], tail)
    else if tail.Valueless? || tail.Unclosed? then [tail.name]
    else []
  }

  function TailVerdict(tail: Tail): Verdict {
    match tail
    case Nameless(_, _) => EmptyName
    case Valueless(_, _, _, _) => NoValue
    case Unclosed(_, _, _, _, _, _) => Unterminated
    case _ => Accepted
  }

  /** No two names are equal after lowercasing, and none was seen before. */
  predicate Distinct(names: seq<string>, lower: Lowercase, seen: set<string>) {
    && (forall i | 0 <= i < |names| :: lower(names[i]) !in seen)
    && (forall i, j | 0 <= i < j < |names| :: lower(names[i]) != lower(names[j]))
  }

  // ---- Scanning what was printed ----

  lemma {:induction false} DropExactly(front: string, rest: string, p: CharTest)
    requires AllOf(front, p) && (rest == "" || !p(rest[0]))
    ensures DropWhile(front + rest, p) == rest
  {
    if front == "" {
      assert front + rest == rest;
    } else {
      assert front[0] in front;
      assert (front + rest)[1..] == front[1..] + rest;
      DropExactly(front[1..], rest, p);
    }
  }

  /** A gap and a name are read as they were printed. */
  lemma ScanName(gap: string, name: string, rest: string, lower: Lowercase, seen: set<string>)
    requires LegalName(gap, name, "", "") && (rest == "" || !NameChar(rest[0]))
    ensures Scan(gap + (name + rest), lower, seen)
         == if lower(name) in seen then Repeated else ScanValue(rest, lower, seen + {lower(name)})
  {
    hide DropWhile, ScanValue;
    assert name[0] in name && (name + rest)[0] == name[0];
    DropExactly(gap, name + rest, Separator);
    DropExactly(name, rest, NameChar);
    assert (name + rest)[..|name|] == name;
  }

  lemma DropEquals(left: string, right: string, value: string)
    requires AllOf(left, Space) && AllOf(right, Space) && (value == "" || !Blank(value[0]))
    ensures DropWhile(left + ("=" + (right + value)), Blank) == "=" + (right + value)
    ensures ("=" + (right + value))[1..] == right + value && DropWhile(right + value, Blank) == value
  {
    DropExactly(left, "=" + (right + value), Blank);
    DropExactly(right, value, Blank);
  }

  lemma {:induction false} NoEquals(rest: string)
    requires !EqualsNext(rest)
    ensures DropWhile(rest, Blank) == "" || DropWhile(rest, Blank)[0] != '='
  {
    if rest != "" && Blank(rest[0]) {
      NoEquals(rest[1..]);
    }
  }

  /** Blanks before the attributes make no difference. */
  lemma ScanBlanks(s: string, lower: Lowercase, seen: set<string>)
    ensures Scan(DropWhile(s, Blank), lower, seen) == Scan(s, lower, seen)
  {
    DropTwice(s);
  }

  lemma {:induction false} DropTwice(s: string)
    ensures DropWhile(DropWhile(s, Blank), Separator) == DropWhile(s, Separator)
  {
    if s != "" && Blank(s[0]) {
      DropTwice(s[1..]);
    }
  }

  lemma ScanPrintedValue(a: Printed, rest: string, lower: Lowercase, names: set<string>)
    requires LegalName(a.gap, a.name, a.left, a.right) && LegalValue(a.value) && Stops(a.value, rest)
    ensures ScanValue(PrintValue(a) + rest, lower, names) == Scan(rest, lower, names)
  {
    hide DropWhile, Scan, EqualsNext;
    match a.value
    case Absent =>
      assert PrintValue(a) + rest == rest;
      NoEquals(rest);
      ScanBlanks(rest, lower, names);
    case Bare(text) =>
      assert PrintValue(a) + rest == a.left + ("=" + (a.right + (text + rest)));
      assert text != "" ==> text[0] in text && (text + rest)[0] == text[0];
      assert text == "" ==> text + rest == rest;
      DropEquals(a.left, a.right, text + rest);
      DropExactly(text, rest, BareChar);
    case Quoted(quote, text) =>
      var printed := [quote] + (text + ([quote] + rest));
      assert PrintValue(a) + rest == a.left + ("=" + (a.right + printed));
      DropEquals(a.left, a.right, printed);
      assert printed[1..] == text + ([quote] + rest);
      DropExactly(text, [quote] + rest, c => c != quote);
      assert ([quote] + rest)[1..] == rest;
  }

  lemma ValueStarts(a: Printed, rest: string)
    requires AllOf(a.left, Space) && LegalValue(a.value) && Stops(a.value, rest)
    ensures var tail := PrintValue(a) + rest; tail == "" || !NameChar(tail[0])
  {
    assert a.left != "" ==> a.left[0] in a.left;
    assert a.value == Absent ==> PrintValue(a) + rest == rest;
  }

  lemma ScanOne(a: Printed, rest: string, lower: Lowercase, seen: set<string>)
    requires LegalName(a.gap, a.name, a.left, a.right) && LegalValue(a.value) && Stops(a.value, rest)
    ensures Scan(Print(a) + rest, lower, seen)
         == if lower(a.name) in seen then Repeated else Scan(rest, lower, seen + {lower(a.name)})
  {
    hide Scan, ScanValue, PrintValue, Stops, LegalValue;
    assert Print(a) + rest == a.gap + (a.name + (PrintValue(a) + rest));
    ValueStarts(a, rest);
    ScanName(a.gap, a.name, PrintValue(a) + rest, lower, seen);
    ScanPrintedValue(a, rest, lower, seen + {lower(a.name)});
  }

  lemma ScanTail(tail: Tail, lower: Lowercase, seen: set<string>)
    requires LegalTail(tail)
    ensures Scan(PrintTail(tail), lower, seen)
         == if Distinct(Names([], tail), lower, seen) then TailVerdict(tail) else Repeated
  {
    hide DropWhile, Distinct;
    NoNames(lower, seen);
    if tail.Valueless? || tail.Unclosed? { OneName(tail.name, lower, seen); }
    match tail
    case Closed(gap, after) => DropExactly(gap, ">" + after, Separator);
    case Cut(gap) =>
      assert gap + "" == gap;
      DropExactly(gap, "", Separator);
    case Nameless(gap, after) =>
      DropExactly(gap, "=" + after, Separator);
      DropExactly("", "=" + after, NameChar);
      assert "" + ("=" + after) == "=" + after;
    case Valueless(gap, name, left, right) =>
      var rest := left + ("=" + right);
      assert left != "" ==> left[0] in left;
      ScanName(gap, name, rest, lower, seen);
      DropEquals(left, right, "");
      assert right + "" == right;
    case Unclosed(gap, name, left, right, quote, text) =>
      var value := [quote] + text;
      assert left != "" ==> left[0] in left;
      ScanName(gap, name, left + ("=" + (right + value)), lower, seen);
      DropEquals(left, right, value);
      assert value[1..] == text + "";
      DropExactly(text, "", c => c != quote);
  }

  lemma NoNames(lower: Lowercase, seen: set<string>)
    ensures Distinct([], lower, seen)
  {
  }

  lemma OneName(name: string, lower: Lowercase, seen: set<string>)
    ensures Distinct([name], lower, seen) <==> lower(name) !in seen
  {
    assert [name] + [] == [name];
    DistinctNext(name, [], lower, seen);
  }

  lemma DistinctNext(name: string, names: seq<string>, lower: Lowercase, seen: set<string>)
    ensures Distinct([name] + names, lower, seen) <==>
      lower(name) !in seen && Distinct(names, lower, seen + {lower(name)})
  {
    var all := [name] + names;
    assert forall i | 0 <= i < |names| :: names[i] == all[i + 1];
    assert forall i | 0 < i < |all| :: all[i] == names[i - 1];
    if Distinct(all, lower, seen) {
      assert all[0] == name;
      forall i | 0 <= i < |names| ensures lower(names[i]) !in seen + {lower(name)} {
        assert lower(all[0]) != lower(all[i + 1]);
      }
    }
  }

  lemma {:induction false} ScanPrinted(attributes: seq<Printed>, tail: Tail, lower: Lowercase, seen: set<string>)
    requires Legal(attributes, tail)
    ensures Scan(PrintAll(attributes, tail), lower, seen)
         == if Distinct(Names(attributes, tail), lower, seen) then TailVerdict(tail) else Repeated
    decreases |attributes|
  {
    hide Scan, Print, PrintTail, LegalName, LegalValue, LegalTail, Stops, Distinct;
    if attributes == [] {
      ScanTail(tail, lower, seen);
    } else {
      var a := attributes[0];
      ScanOne(a, PrintAll(attributes[1..], tail), lower, seen);
      ScanPrinted(attributes[1..], tail, lower, seen + {lower(a.name)});
      DistinctNext(a.name, Names(attributes[1..], tail), lower, seen);
    }
  }

  /** The text of a tag: a first character, which is not looked at, the tag name, the attributes and the tail. */
  predicate IsTag(raw: string, tag: string, attributes: seq<Printed>, tail: Tail) {
    && raw != "" && raw[1..] == tag + PrintAll(attributes, tail)
    && Word(tag, "/>") && EndsTag(PrintAll(attributes, tail)) && Legal(attributes, tail)
  }

  /** A tag is refused for a repeated name exactly when two of its lowercased names are equal, and otherwise judged by
      what stands after its last complete attribute. */
  lemma PrintedVerdict(raw: string, tag: string, attributes: seq<Printed>, tail: Tail, lower: Lowercase)
    requires IsTag(raw, tag, attributes, tail)
    ensures Validate(raw, lower)
         == if Distinct(Names(attributes, tail), lower, {}) then TailVerdict(tail) else Repeated
  {
    hide Scan, PrintAll, Legal, Distinct, DropWhile;
    DropExactly(tag, PrintAll(attributes, tail), TagChar);
    ScanPrinted(attributes, tail, lower, {});
  }

  // ---- Every text is a tag ----

  lemma {:induction false} Span(s: string, p: CharTest) returns (front: string, rest: string)
    ensures s == front + rest && AllOf(front, p) && (rest == "" || !p(rest[0]))
    ensures s != "" && p(s[0]) ==> front != ""
  {
    if s != "" && p(s[0]) {
      front, rest := Span(s[1..], p);
      front := [s[0]] + front;
    } else {
      front, rest := "", s;
    }
  }

  lemma {:induction false} SpacesThenEquals(left: string, rest: string)
    requires AllOf(left, Space) && (rest == "" || (!Space(rest[0]) && rest[0] != '='))
    ensures !EqualsNext(left + rest)
  {
    if left == "" {
      assert left + rest == rest;
    } else {
      assert left[0] in left && (left + rest)[1..] == left[1..] + rest;
      SpacesThenEquals(left[1..], rest);
    }
  }

  /** Nothing but a filler, the end, or an equals sign: there is no further name. */
  lemma NoName(s: string, gap: string, start: string) returns (tail: Tail)
    requires s == gap + start && AllOf(gap, Filler) && (start == "" || start[0] == '>' || start[0] == '=')
    ensures LegalTail(tail) && PrintTail(tail) == s
  {
    if start == "" {
      tail := Cut(gap);
    } else if start[0] == '>' {
      tail := Closed(gap, start[1..]);
      assert start == ">" + start[1..];
    } else {
      tail := Nameless(gap, start[1..]);
      assert start == "=" + start[1..];
    }
  }

  lemma Prepended(a: Printed, attributes: seq<Printed>, tail: Tail)
    requires LegalName(a.gap, a.name, a.left, a.right) && LegalValue(a.value)
    requires Stops(a.value, PrintAll(attributes, tail)) && Legal(attributes, tail)
    ensures Legal([a] + attributes, tail) && PrintAll([a] + attributes, tail) == Print(a) + PrintAll(attributes, tail)
  {
    assert ([a] + attributes)[1..] == attributes;
  }

  /** Whatever follows a tag name can be printed. */
  lemma {:induction false} Parsed(s: string) returns (attributes: seq<Printed>, tail: Tail)
    ensures Legal(attributes, tail) && PrintAll(attributes, tail) == s
    decreases |s|
  {
    hide PrintValue, EqualsNext, Stops, LegalValue;
    var gap, start := Span(s, Filler);
    if start == "" || start[0] == '>' || start[0] == '=' {
      tail := NoName(s, gap, start);
      attributes := [];
    } else {
      var name, rest := Span(start, c => !Space(c) && c !in "=/>");
      var a, after, unfinished := ParsedValue(gap, name, rest);
      if unfinished.Some? {
        attributes, tail := [], unfinished.value;
      } else {
        attributes, tail := Parsed(after);
        Prepended(a, attributes, tail);
        attributes := [a] + attributes;
      }
    }
  }

  datatype Option<T> = None | Some(value: T)

  /** The attribute and the text after it, or the tail, that the text comes from. */
  ghost predicate Read(text: string, a: Printed, after: string, unfinished: Option<Tail>) {
    if unfinished.Some? then LegalTail(unfinished.value) && PrintTail(unfinished.value) == text
    else
      && LegalName(a.gap, a.name, a.left, a.right) && LegalValue(a.value) && Stops(a.value, after)
      && Print(a) + after == text
  }

  lemma ParsedQuoted(gap: string, name: string, left: string, right: string, value: string)
    returns (a: Printed, after: string, unfinished: Option<Tail>)
    requires LegalName(gap, name, left, right) && value != "" && Quote(value[0])
    ensures Read(gap + (name + (left + ("=" + (right + value)))), a, after, unfinished) && |after| <= |value|
  {
    var quote := value[0];
    var text, close := Span(value[1..], c => c != quote);
    a, after, unfinished := Printed(gap, name, left, right, Quoted(quote, text)), "", None;
    if close == "" {
      assert value == [quote] + text;
      unfinished := Some(Unclosed(gap, name, left, right, quote, text));
    } else {
      after := close[1..];
      assert value == ([quote] + (text + [quote])) + after;
      assert Print(a) + after == gap + (name + (left + ("=" + (right + value))));
    }
  }

  lemma ParsedBare(gap: string, name: string, left: string, right: string, value: string)
    returns (a: Printed, after: string)
    requires LegalName(gap, name, left, right) && value != "" && !Quote(value[0]) && !Space(value[0])
    ensures Read(gap + (name + (left + ("=" + (right + value)))), a, after, None) && |after| <= |value|
  {
    var text;
    text, after := Span(value, c => !Space(c) && c != '>');
    a := Printed(gap, name, left, right, Bare(text));
    assert text != "" ==> text[0] == value[0];
    assert text == "" ==> after == value;
    assert Print(a) + after == gap + (name + (left + ("=" + (right + value))));
  }

  lemma ParsedValue(gap: string, name: string, rest: string)
    returns (a: Printed, after: string, unfinished: Option<Tail>)
    requires LegalName(gap, name, "", "") && EndsName(rest)
    ensures Read(gap + (name + rest), a, after, unfinished) && |after| <= |rest|
  {
    a, after, unfinished := Printed(gap, name, "", "", Absent), rest, None;
    var left, equals := Span(rest, Space);
    if equals == "" || equals[0] != '=' {
      SpacesThenEquals(left, equals);
      assert Print(a) + after == gap + (name + rest);
    } else {
      hide Read;
      var right, value := Span(equals[1..], Space);
      assert rest == left + ("=" + (right + value));
      if value == "" {
        unfinished := Some(Valueless(gap, name, left, right));
        NoValueRead(gap, name, left, right, a, after);
      } else if Quote(value[0]) {
        a, after, unfinished := ParsedQuoted(gap, name, left, right, value);
      } else {
        a, after := ParsedBare(gap, name, left, right, value);
      }
    }
  }

  lemma NoValueRead(gap: string, name: string, left: string, right: string, a: Printed, after: string)
    requires LegalName(gap, name, left, right)
    ensures Read(gap + (name + (left + ("=" + (right + "")))), a, after, Some(Valueless(gap, name, left, right)))
  {
    assert right + "" == right;
  }

  predicate EndsName(rest: string) {
    rest == "" || Space(rest[0]) || rest[0] in "=/>"
  }

  /** Every nonempty text is the text of a tag, so that `PrintedVerdict` says of every input what its verdict is. */
  lemma EveryTextIsTag(raw: string) returns (tag: string, attributes: seq<Printed>, tail: Tail)
    requires raw != ""
    ensures IsTag(raw, tag, attributes, tail)
  {
    hide Legal, PrintAll;
    var rest;
    tag, rest := Span(raw[1..], c => !Space(c) && c !in "/>");
    attributes, tail := Parsed(rest);
  }
}
