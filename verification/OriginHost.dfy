/** Origin hosts as browsers write them. IDNA conversion and the IPv6 literal parser are parameters. */
module OriginHost {
  import M = Markup
  import opened Numerals
  import IPv4
  import IPv6

  datatype Fault = Empty | NotPunycode | ZoneIdentifier | BadIPv4 | BadIPv6

  datatype Result = Ok(host: string) | Err(fault: Fault)

  type ToASCII = string -> Option<string>

  type ReadIPv6 = string -> Option<seq<IPv6.Piece>>

  predicate ASCII(s: string) {
    forall i | 0 <= i < |s| :: s[i] < '\U{80}'
  }

  function TrimRightDots(s: string): (r: string)
    ensures |r| <= |s|
  {
    if s != "" && s[|s| - 1] == '.' then TrimRightDots(s[..|s| - 1]) else s
  }

  function CanonicalDomainHost(hostname: string, idna: ToASCII): Result {
    var converted := if ASCII(hostname) then Some(hostname) else idna(hostname);
    if converted.None? then Err(NotPunycode)
    else
      var host := M.ToLower(TrimRightDots(converted.value));
      if host == "" then Err(Empty) else Ok(host)
  }

  /** `isRadixDigits`, which wants at least one digit. */
  predicate RadixDigits(s: string, base: nat) {
    s != "" && AllDigits(s, base)
  }

  predicate EndsInIPv4Number(host: string) {
    var parts := Split(host, '.');
    var last := parts[|parts| - 1];
    last != "" && (RadixDigits(last, 10) || (IPv4.HexPrefix(last) && (|last| == 2 || RadixDigits(last[2..], 16))))
  }

  method IsRadixDigits(s: string, base: nat) returns (r: bool)
    requires base == 10 || base == 16
    ensures r == RadixDigits(s, base)
  {
    if s == "" { return false; }
    for i := 0 to |s|
      invariant forall k | 0 <= k < i :: DigitValue(s[k]) < base
    {
      if '0' <= s[i] <= '9' { continue; }
      if base == 16 && 'a' <= s[i] <= 'f' { continue; }
      if base == 16 && 'A' <= s[i] <= 'F' { continue; }
      return false;
    }
    r := true;
  }

  /** A host without colons: a domain name, or an IPv4 address in any spelling. */
  function CanonicalNameHost(hostname: string, idna: ToASCII): Result {
    var domain := CanonicalDomainHost(hostname, idna);
    if domain.Err? || !EndsInIPv4Number(domain.host) then domain
    else
      var address := IPv4.ParseHost(domain.host);
      if address.None? then Err(BadIPv4) else Ok(IPv4.Format(IPv4.Quad(address.value)))
  }

  /** The outcome for an IPv6 literal: refused with the fault named, or its one canonical text in brackets. */
  ghost predicate CanonicalLiteral(literal: string, read: ReadIPv6, r: Result) {
    if '%' in literal then r == Err(ZoneIdentifier)
    else if read(literal).None? || |read(literal).value| != 8 then r == Err(BadIPv6)
    else exists text :: IPv6.Serializes(text, read(literal).value) && r == Ok("[" + text + "]")
  }

  /** `r` is what a host name canonicalises to. */
  ghost predicate Canonical(hostname: string, idna: ToASCII, read: ReadIPv6, r: Result) {
    if ':' in hostname then CanonicalLiteral(hostname, read, r) else r == CanonicalNameHost(hostname, idna)
  }

  method CanonicalIPv6Host(literal: string, read: ReadIPv6) returns (r: Result)
    ensures CanonicalLiteral(literal, read, r)
    ensures r.Ok? <==> '%' !in literal && read(literal).Some? && |read(literal).value| == 8
    ensures r.Ok? ==> exists text :: r.host == "[" + text + "]" && IPv6.Serializes(text, read(literal).value)
  {
    if '%' in literal { return Err(ZoneIdentifier); }
    var pieces := read(literal);
    if pieces.None? || |pieces.value| != 8 { return Err(BadIPv6); }
    var text := IPv6.SerializeIPv6(pieces.value);
    r := Ok("[" + text + "]");
  }

  method CanonicalOriginHost(hostname: string, idna: ToASCII, read: ReadIPv6) returns (r: Result)
    ensures Canonical(hostname, idna, read, r)
    ensures ':' in hostname ==> (r.Ok? <==> '%' !in hostname && read(hostname).Some? && |read(hostname).value| == 8)
    ensures ':' in hostname && r.Ok? ==>
      exists text :: r.host == "[" + text + "]" && IPv6.Serializes(text, read(hostname).value)
    ensures ':' !in hostname ==> r == CanonicalNameHost(hostname, idna)
  {
    if ':' in hostname {
      r := CanonicalIPv6Host(hostname, read);
      return;
    }
    var domain := CanonicalDomainHost(hostname, idna);
    if domain.Err? { return domain; }
    if EndsInIPv4Number(domain.host) {
      var quad := IPv4.ParseBrowserIPv4Host(domain.host);
      if quad.None? { return Err(BadIPv4); }
      return Ok(IPv4.Format(quad.value));
    }
    r := domain;
  }

  // ---- Fixpoints ----

  lemma {:induction false} TrimmedOnce(s: string)
    ensures TrimRightDots(TrimRightDots(s)) == TrimRightDots(s)
    ensures forall c | c in TrimRightDots(s) :: c in s
  {
    if s != "" && s[|s| - 1] == '.' {
      TrimmedOnce(s[..|s| - 1]);
    }
  }

  lemma LowerASCII(s: string)
    requires ASCII(s) && TrimRightDots(s) == s && ':' !in s
    ensures var lower := M.ToLower(s);
      ASCII(lower) && M.ToLower(lower) == lower && ':' !in lower && TrimRightDots(lower) == lower
  {
    var lower := M.ToLower(s);
    assert s != "" ==> s[|s| - 1] != '.';
    forall i | 0 <= i < |s| ensures lower[i] < '\U{80}' && lower[i] != ':' && (lower[i] == '.' ==> s[i] == '.') {
      assert s[i] in s;
    }
  }

  lemma {:induction false} TrimmedASCII(s: string)
    requires ASCII(s)
    ensures ASCII(TrimRightDots(s))
  {
    if s != "" && s[|s| - 1] == '.' {
      TrimmedASCII(s[..|s| - 1]);
    }
  }

  lemma DomainFixpoint(hostname: string, idna: ToASCII)
    requires ASCII(hostname) && ':' !in hostname && CanonicalDomainHost(hostname, idna).Ok?
    ensures var host := CanonicalDomainHost(hostname, idna).host;
      host != "" && ':' !in host && CanonicalDomainHost(host, idna) == Ok(host)
  {
    TrimmedOnce(hostname);
    TrimmedASCII(hostname);
    LowerASCII(TrimRightDots(hostname));
  }

  /** Dotted decimal text is already a canonical host. */
  lemma FormattedFixpoint(address: nat, idna: ToASCII)
    requires address < 0x1_0000_0000
    ensures var text := IPv4.Format(IPv4.Quad(address)); CanonicalNameHost(text, idna) == Ok(text) && ':' !in text
  {
    IPv4.QuadSums(address);
    hide IPv4.Format, IPv4.ParseHost, TrimRightDots, AllDigits, Split, Spelled;
    var quad, text := IPv4.Quad(address), IPv4.Format(IPv4.Quad(address));
    IPv4.FormatFixpoint(address);
    FormattedText(quad);
    var last := Spelled(quad[3], 10);
    SpelledIsPositional(quad[3], 10);
    LowerASCII(text);
  }

  /** The text is made of lower-case digits and dots and ends in a decimal label. */
  lemma FormattedText(quad: seq<nat>)
    requires |quad| == 4
    ensures var text, parts := IPv4.Format(quad), Split(IPv4.Format(quad), '.');
      && text != "" && ASCII(text) && ':' !in text && M.ToLower(text) == text && TrimRightDots(text) == text
      && parts[|parts| - 1] == Spelled(quad[3], 10)
  {
    hide *;
    var parts := IPv4.Labels(quad);
    IPv4.FormatJoins(quad);
    forall i | 0 <= i < |parts| ensures Plain(parts[i]) && '.' !in parts[i] {
      SpelledPlain(quad[i]);
    }
    SplitJoin(parts, '.');
    JoinedPlain(parts);
    DottedText(Join(parts, '.'));
  }

  lemma DottedText(text: string)
    requires text != "" && text[|text| - 1] != '.'
    requires forall i | 0 <= i < |text| :: text[i] == '.' || '0' <= text[i] <= '9'
    ensures ASCII(text) && ':' !in text && M.ToLower(text) == text && TrimRightDots(text) == text
  {
  }

  predicate Plain(s: string) {
    s != "" && forall i | 0 <= i < |s| :: '0' <= s[i] <= '9'
  }

  lemma {:induction false} SpelledPlain(n: nat)
    ensures Plain(Spelled(n, 10)) && '.' !in Spelled(n, 10)
    decreases n
  {
    if n >= 10 {
      SpelledPlain(n / 10);
    }
  }

  lemma {:induction false} JoinedPlain(parts: seq<string>)
    requires parts != [] && forall i | 0 <= i < |parts| :: Plain(parts[i])
    ensures var text := Join(parts, '.');
      && text != "" && text[|text| - 1] != '.'
      && forall i | 0 <= i < |text| :: text[i] == '.' || '0' <= text[i] <= '9'
  {
    if |parts| > 1 {
      JoinedPlain(parts[..|parts| - 1]);
    }
  }

  /** On every ASCII host name and IPv4 spelling canonicalising twice is canonicalising once. */
  lemma NameTwice(hostname: string, idna: ToASCII)
    requires ASCII(hostname) && ':' !in hostname && CanonicalNameHost(hostname, idna).Ok?
    ensures var host := CanonicalNameHost(hostname, idna).host;
      ':' !in host && CanonicalNameHost(host, idna) == Ok(host)
  {
    hide IPv4.Format, IPv4.Quad, EndsInIPv4Number;
    DomainFixpoint(hostname, idna);
    var domain := CanonicalDomainHost(hostname, idna).host;
    if EndsInIPv4Number(domain) {
      var address := IPv4.ParseHost(domain).value;
      ParsedBounded(domain);
      FormattedFixpoint(address, idna);
    }
  }

  lemma ParsedBounded(host: string)
    requires IPv4.ParseHost(host).Some?
    ensures IPv4.ParseHost(host).value < 0x1_0000_0000
  {
    IPv4.AddressBounded(IPv4.Numbers(Split(host, '.')).value);
  }

  // ---- IPv6 hosts ----

  /** What is asked of the literal parser: it reads every canonical text back, and no literal has a bracket. */
  ghost predicate Reads(read: ReadIPv6) {
    && (forall text, pieces: seq<IPv6.Piece> | |pieces| == 8 && IPv6.Serializes(text, pieces) ::
          read(text) == Some(pieces))
    && forall text | '[' in text :: read(text).None?
  }

  /** The reader of RFC 4291 meets this. */
  lemma StandardReader()
    ensures Reads(IPv6.Read)
  {
    forall text, pieces: seq<IPv6.Piece> | |pieces| == 8 && IPv6.Serializes(text, pieces)
      ensures IPv6.Read(text) == Some(pieces)
    {
      IPv6.RoundTrip(text, pieces);
    }
    assert !IPv6.LiteralChar('[');
    forall text | '[' in text ensures IPv6.Read(text).None? {
      if IPv6.Read(text).Some? {
        IPv6.ReadableChars(text);
      }
    }
  }

  /** A canonical text is itself a literal without zone and brackets. */
  lemma SerializedText(text: string, pieces: seq<IPv6.Piece>)
    requires |pieces| == 8 && IPv6.Serializes(text, pieces)
    ensures ':' in text && '%' !in text && '[' !in text
  {
    IPv6.RoundTrip(text, pieces);
    IPv6.ReadableChars(text);
    assert !IPv6.LiteralChar('[') && !IPv6.LiteralChar('%');
  }

  /** A host name has one canonical form. */
  lemma CanonicalOnce(hostname: string, idna: ToASCII, read: ReadIPv6, r: Result, s: Result)
    requires Canonical(hostname, idna, read, r) && Canonical(hostname, idna, read, s)
    ensures r == s
  {
    if ':' in hostname && r.Ok? {
      var pieces := read(hostname).value;
      var text :| IPv6.Serializes(text, pieces) && r == Ok("[" + text + "]");
      var other :| IPv6.Serializes(other, pieces) && s == Ok("[" + other + "]");
      IPv6.OneText(text, other, pieces);
    }
  }

  /** `Hostname()` of a URL takes the brackets off. */
  function Unbracketed(host: string): string {
    if |host| >= 2 && host[0] == '[' && host[|host| - 1] == ']' then host[1..|host| - 1] else host
  }

  /** What is asked of IDNA conversion: it gives host names in ASCII. */
  predicate Converts(hostname: string, idna: ToASCII) {
    !ASCII(hostname) && idna(hostname).Some? ==>
      ASCII(idna(hostname).value) && ':' !in idna(hostname).value && '[' !in idna(hostname).value
  }

  /** So the converted name has the same canonical form. */
  lemma ConvertedName(hostname: string, idna: ToASCII) returns (name: string)
    requires Converts(hostname, idna) && ':' !in hostname && CanonicalNameHost(hostname, idna).Ok?
    ensures ASCII(name) && ':' !in name && ('[' !in hostname ==> '[' !in name)
    ensures CanonicalNameHost(name, idna) == CanonicalNameHost(hostname, idna)
  {
    name := if ASCII(hostname) then hostname else idna(hostname).value;
  }

  /** The text between the brackets canonicalises to the same host, and with the brackets it is refused. */
  lemma LiteralTwice(hostname: string, idna: ToASCII, read: ReadIPv6, r: Result)
    requires Reads(read) && ':' in hostname && Canonical(hostname, idna, read, r) && r.Ok?
    ensures Canonical(Unbracketed(r.host), idna, read, r)
    ensures Canonical(r.host, idna, read, Err(BadIPv6))
  {
    var pieces := read(hostname).value;
    var text :| IPv6.Serializes(text, pieces) && r == Ok("[" + text + "]");
    SerializedText(text, pieces);
    assert Unbracketed(r.host) == text;
    assert ':' in r.host && '[' in r.host && '%' !in r.host;
  }

  /** Canonicalising the result again gives it back exactly for hosts without a colon. */
  lemma CanonicalTwice(hostname: string, idna: ToASCII, read: ReadIPv6, r: Result, s: Result)
    requires Converts(hostname, idna) && Reads(read)
    requires Canonical(hostname, idna, read, r) && r.Ok? && Canonical(r.host, idna, read, s)
    ensures s == r <==> ':' !in hostname
  {
    if ':' in hostname {
      LiteralTwice(hostname, idna, read, r);
      CanonicalOnce(r.host, idna, read, s, Err(BadIPv6));
    } else {
      var name := ConvertedName(hostname, idna);
      NameTwice(name, idna);
    }
  }

  lemma {:induction false} NoNewBracket(hostname: string)
    requires '[' !in hostname
    ensures '[' !in M.ToLower(TrimRightDots(hostname))
  {
    TrimmedOnce(hostname);
    var trimmed := TrimRightDots(hostname);
    forall i | 0 <= i < |trimmed| ensures M.ToLower(trimmed)[i] != '[' {
      assert trimmed[i] in trimmed;
    }
  }

  /** As the host of a URL, every canonical host is its own canonical form, brackets included. */
  lemma CanonicalAsURLHost(hostname: string, idna: ToASCII, read: ReadIPv6, r: Result, s: Result)
    requires Converts(hostname, idna) && '[' !in hostname && Reads(read)
    requires Canonical(hostname, idna, read, r) && r.Ok?
    ensures Canonical(Unbracketed(r.host), idna, read, s) <==> s == r
  {
    if ':' in hostname {
      LiteralTwice(hostname, idna, read, r);
    } else {
      var name := ConvertedName(hostname, idna);
      NameTwice(name, idna);
      NameUnbracketed(name, idna);
    }
    if Canonical(Unbracketed(r.host), idna, read, s) {
      CanonicalOnce(Unbracketed(r.host), idna, read, s, r);
    }
  }

  lemma NameUnbracketed(hostname: string, idna: ToASCII)
    requires ASCII(hostname) && ':' !in hostname && '[' !in hostname && CanonicalNameHost(hostname, idna).Ok?
    ensures Unbracketed(CanonicalNameHost(hostname, idna).host) == CanonicalNameHost(hostname, idna).host
  {
    hide IPv4.Format, IPv4.Quad;
    NoNewBracket(hostname);
    var domain := CanonicalDomainHost(hostname, idna).host;
    if EndsInIPv4Number(domain) {
      var address := IPv4.ParseHost(domain).value;
      ParsedBounded(domain);
      IPv4.QuadSums(address);
      FormattedStarts(IPv4.Quad(address));
    }
  }

  lemma FormattedStarts(quad: seq<nat>)
    requires |quad| == 4
    ensures IPv4.Format(quad) != "" && IPv4.Format(quad)[0] != '['
  {
    hide *;
    var parts := IPv4.Labels(quad);
    IPv4.FormatJoins(quad);
    forall i | 0 <= i < |parts| ensures Plain(parts[i]) {
      SpelledPlain(quad[i]);
    }
    JoinedPlain(parts);
  }
}
