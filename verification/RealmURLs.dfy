/** `validateRealmRelativeURLs`: the template scope stack, with the test for root-relative URLs in a tag's
    attributes as a parameter. */
module RealmURLs {
  import opened Markup
  import opened Templates

  type BadTag = Attributes -> bool

  datatype Complaint = RootRelative

  function Top(scopes: seq<bool>): bool
    requires |scopes| > 0
  {
    scopes[|scopes| - 1]
  }

  function Step(scopes: seq<bool>, token: Token, bad: BadTag): (r: Outcome<seq<bool>, Complaint>)
    requires |scopes| > 0
    ensures r.Pass? ==> |r.value| > 0
  {
    match token
    case Text(_) => Pass(scopes)
    case Other => Pass(scopes)
    case End(name) => if name == "template" && |scopes| > 1 then Pass(scopes[..|scopes| - 1]) else Pass(scopes)
    case Start(name, attributes) =>
      if name == "template" then Pass(scopes + [Top(scopes) || !Shadow(attributes)])
      else if !Top(scopes) && bad(attributes) then Fail(RootRelative) else Pass(scopes)
    case SelfClosing(name, attributes) =>
      if name != "template" && !Top(scopes) && bad(attributes) then Fail(RootRelative) else Pass(scopes)
  }

  function Run(scopes: seq<bool>, tokens: seq<Token>, bad: BadTag): (r: Outcome<seq<bool>, Complaint>)
    requires |scopes| > 0
    ensures r.Pass? ==> |r.value| > 0
  {
    if tokens == [] then Pass(scopes)
    else
      var before := Run(scopes, tokens[..|tokens| - 1], bad);
      if before.Fail? then before else Step(before.value, tokens[|tokens| - 1], bad)
  }

  function Validate(tokens: seq<Token>, bad: BadTag): Outcome<(), Complaint> {
    var last := Run([false], tokens, bad);
    if last.Fail? then Fail(last.error) else Pass(())
  }

  method ValidateRealmRelativeURLs(tokens: seq<Token>, bad: BadTag) returns (r: Outcome<(), Complaint>)
    ensures r == Validate(tokens, bad)
  {
    var scopes := [false];
    for i := 0 to |tokens|
      invariant |scopes| > 0 && Run([false], tokens[..i], bad) == Pass(scopes)
    {
      var token := tokens[i];
      assert tokens[..i + 1][..i] == tokens[..i] && tokens == tokens[..i + 1] + tokens[i + 1..];
      RunSplit([false], tokens[..i + 1], tokens[i + 1..], bad);
      if token.Text? || token.Other? { continue; }
      if token.name == "template" {
        if token.End? {
          if |scopes| > 1 {
            scopes := scopes[..|scopes| - 1];
          }
        } else if !token.SelfClosing? {
          scopes := scopes + [scopes[|scopes| - 1] || !Shadow(token.attributes)];
        }
        continue;
      }
      if scopes[|scopes| - 1] || token.End? { continue; }
      if bad(token.attributes) { return Fail(RootRelative); }
    }
    assert tokens[..|tokens|] == tokens;
    r := Pass(());
  }

  lemma {:induction false} RunSplit(scopes: seq<bool>, a: seq<Token>, b: seq<Token>, bad: BadTag)
    requires |scopes| > 0
    ensures var r := Run(scopes, a, bad); Run(scopes, a + b, bad) == if r.Fail? then r else Run(r.value, b, bad)
    decreases |b|
  {
    if b == [] {
      assert a + b == a;
    } else {
      assert (a + b)[..|a + b| - 1] == a + b[..|b| - 1];
      RunSplit(scopes, a, b[..|b| - 1], bad);
    }
  }

  // ---- What the stack means ----

  /** Some tag that a browser would act on is bad: inside templates only shadow roots are live. */
  predicate LiveBad(piece: Piece, bad: BadTag) {
    match piece
    case Single(token) => (token.Start? || token.SelfClosing?) && token.name != "template" && bad(token.attributes)
    case Template(attributes, body) => Shadow(attributes) && exists child | child in body :: LiveBad(child, bad)
  }

  predicate SomeLiveBad(pieces: seq<Piece>, bad: BadTag) {
    exists piece | piece in pieces :: LiveBad(piece, bad)
  }

  lemma {:induction false} RunPiece(scopes: seq<bool>, piece: Piece, bad: BadTag)
    requires |scopes| > 0 && Proper(piece)
    ensures Run(scopes, Tokens(piece), bad)
         == if !Top(scopes) && LiveBad(piece, bad) then Fail(RootRelative) else Pass(scopes)
    decreases piece, 0
  {
    match piece
    case Single(token) => assert [token][..0] == [];
    case Template(attributes, body) => RunTemplate(scopes, attributes, body, bad);
  }

  lemma TemplateTokens(attributes: Attributes, body: seq<Piece>)
    ensures Tokens(Template(attributes, body)) == [Start("template", attributes)] + TokensAll(body) + [End("template")]
  {
  }

  lemma RunOpen(scopes: seq<bool>, attributes: Attributes, bad: BadTag)
    requires |scopes| > 0
    ensures Run(scopes, [Start("template", attributes)], bad) == Pass(scopes + [Top(scopes) || !Shadow(attributes)])
  {
    assert [Start("template", attributes)][..0] == [];
  }

  lemma RunClose(scopes: seq<bool>, inner: seq<bool>, bad: BadTag)
    requires |scopes| > 0 && |inner| == |scopes| + 1 && inner[..|scopes|] == scopes
    ensures Run(inner, [End("template")], bad) == Pass(scopes)
  {
    assert [End("template")][..0] == [];
  }

  lemma {:induction false} RunTemplate(scopes: seq<bool>, attributes: Attributes, body: seq<Piece>, bad: BadTag)
    requires |scopes| > 0 && AllProper(body)
    ensures Run(scopes, Tokens(Template(attributes, body)), bad)
         == if !Top(scopes) && Shadow(attributes) && SomeLiveBad(body, bad) then Fail(RootRelative) else Pass(scopes)
    decreases body, 2
  {
    var open, close := [Start("template", attributes)], [End("template")];
    var inner := scopes + [Top(scopes) || !Shadow(attributes)];
    hide Run, Tokens, TokensAll, SomeLiveBad, Shadow, AllProper;
    assert Tokens(Template(attributes, body)) == open + TokensAll(body) + close by { TemplateTokens(attributes, body); }
    RunOpen(scopes, attributes, bad);
    RunClose(scopes, inner, bad);
    RunSplit(scopes, open + TokensAll(body), close, bad);
    RunSplit(scopes, open, TokensAll(body), bad);
    RunPieces(inner, body, bad);
  }

  lemma {:induction false} RunPieces(scopes: seq<bool>, pieces: seq<Piece>, bad: BadTag)
    requires |scopes| > 0 && AllProper(pieces)
    ensures Run(scopes, TokensAll(pieces), bad)
         == if !Top(scopes) && SomeLiveBad(pieces, bad) then Fail(RootRelative) else Pass(scopes)
    decreases pieces, 1
  {
    if pieces != [] {
      var front, last := pieces[..|pieces| - 1], pieces[|pieces| - 1];
      assert pieces == front + [last];
      RunPieces(scopes, front, bad);
      RunSplit(scopes, TokensAll(front), Tokens(last), bad);
      RunPiece(scopes, last, bad);
      assert SomeLiveBad(pieces, bad) <==> SomeLiveBad(front, bad) || LiveBad(last, bad) by {
        if SomeLiveBad(front, bad) {
          var piece :| piece in front && LiveBad(piece, bad);
          assert piece in pieces;
        }
      }
    }
  }

  /** The checker accepts a document exactly when no tag outside inert templates is bad. */
  lemma {:induction false} AcceptsIffNoLiveBadTag(pieces: seq<Piece>, bad: BadTag)
    requires AllProper(pieces)
    ensures Validate(TokensAll(pieces), bad).Pass? <==> !SomeLiveBad(pieces, bad)
  {
    RunPieces([false], pieces, bad);
  }

  // ---- Erasure ----

  /** Deleting an inert template subtree from any stream keeps the verdict. */
  lemma {:induction false} InertTemplateErased(before: seq<Token>, attributes: Attributes, body: seq<Piece>,
                                               after: seq<Token>, bad: BadTag)
    requires AllProper(body)
    requires var p := Run([false], before, bad); p.Pass? && !Top(p.value) ==> !Shadow(attributes)
    ensures Validate(before + Tokens(Template(attributes, body)) + after, bad) == Validate(before + after, bad)
  {
    var p := Run([false], before, bad);
    var template := Template(attributes, body);
    RunSplit([false], before, after, bad);
    RunSplit([false], before, Tokens(template), bad);
    RunSplit([false], before + Tokens(template), after, bad);
    if p.Pass? {
      RunPiece(p.value, template, bad);
    }
  }
}
