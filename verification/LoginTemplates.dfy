/** Inert template subtrees never matter to `validateLoginHTML`. */
module LoginTemplates {
  import opened Markup
  import opened Templates
  import opened LoginPage

  /** A template opened here is inert: inside an inert one, inside a tracked select, or without a shadow root. */
  predicate InertHere(p: Page, attributes: Attributes)
    requires |p.scopes| > 0
  {
    Top(p.scopes).inert || p.select.control != "" || !Shadow(attributes)
  }

  lemma {:induction false} InertPiece(p: Page, piece: Piece)
    requires |p.scopes| > 0 && Proper(piece) && Top(p.scopes).inert
    ensures Run(p, Tokens(piece)) == Pass(p)
    decreases piece, 0
  {
    match piece
    case Single(token) => assert [token][..0] == [];
    case Template(attributes, body) => InertTemplate(p, attributes, body);
  }

  lemma {:induction false} InertTemplate(p: Page, attributes: Attributes, body: seq<Piece>)
    requires |p.scopes| > 0 && AllProper(body) && InertHere(p, attributes)
    ensures Run(p, Tokens(Template(attributes, body))) == Pass(p)
    decreases body, 2
  {
    var open, close := [Start("template", attributes)], [End("template")];
    var inner := OpenTemplate(p, attributes);
    assert open[..0] == [] && close[..0] == [] && inner.scopes[..|p.scopes|] == p.scopes;
    RunSplit(p, open + TokensAll(body), close);
    RunSplit(p, open, TokensAll(body));
    InertPieces(inner, body);
  }

  lemma {:induction false} InertPieces(p: Page, pieces: seq<Piece>)
    requires |p.scopes| > 0 && AllProper(pieces) && Top(p.scopes).inert
    ensures Run(p, TokensAll(pieces)) == Pass(p)
    decreases pieces, 1
  {
    if pieces != [] {
      var front, last := pieces[..|pieces| - 1], pieces[|pieces| - 1];
      InertPieces(p, front);
      RunSplit(p, TokensAll(front), Tokens(last));
      InertPiece(p, last);
    }
  }

  /** Deleting an inert template subtree from any stream keeps the verdict, complaint included. */
  lemma {:induction false} InertTemplateErased(before: seq<Token>, attributes: Attributes, body: seq<Piece>,
                                               after: seq<Token>,
                            basePath: string, mode: Mode, requestID: string, csrf: string)
    requires AllProper(body)
    requires Run(BLANK, before).Pass? ==> InertHere(Run(BLANK, before).value, attributes)
    ensures Validate(before + Tokens(Template(attributes, body)) + after, basePath, mode, requestID, csrf)
         == Validate(before + after, basePath, mode, requestID, csrf)
  {
    hide Step, FormComplaint, Tokens, InertHere;
    var template := Tokens(Template(attributes, body));
    RunSplit(BLANK, before, after);
    RunSplit(BLANK, before, template);
    RunSplit(BLANK, before + template, after);
    if Run(BLANK, before).Pass? {
      InertTemplate(Run(BLANK, before).value, attributes, body);
    }
  }

  /** A template inside a tracked select is inert even when it asks for a shadow root. */
  lemma {:induction false} TemplateInSelectErased(before: seq<Token>, attributes: Attributes, body: seq<Piece>,
                                                  after: seq<Token>,
                               basePath: string, mode: Mode, requestID: string, csrf: string)
    requires AllProper(body)
    requires Run(BLANK, before).Pass? && Run(BLANK, before).value.select.control != ""
    ensures Validate(before + Tokens(Template(attributes, body)) + after, basePath, mode, requestID, csrf)
         == Validate(before + after, basePath, mode, requestID, csrf)
  {
    InertTemplateErased(before, attributes, body, after, basePath, mode, requestID, csrf);
  }
}
