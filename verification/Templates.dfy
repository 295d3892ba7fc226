/** Token streams as template subtrees among other tokens, which need not be nested. */
module Templates {
  import opened Markup

  /** A document as template subtrees among other tokens. */
  datatype Piece = Single(token: Token) | Template(attributes: Attributes, body: seq<Piece>)

  predicate Proper(piece: Piece) {
    match piece
    case Single(token) => (token.Start? || token.End?) ==> token.name != "template"
    case Template(_, body) => forall child | child in body :: Proper(child)
  }

  predicate AllProper(pieces: seq<Piece>) {
    forall piece | piece in pieces :: Proper(piece)
  }

  function Tokens(piece: Piece): seq<Token>
    decreases piece
  {
    match piece
    case Single(token) => [token]
    case Template(attributes, body) => [Start("template", attributes)] + TokensAll(body) + [End("template")]
  }

  function TokensAll(pieces: seq<Piece>): seq<Token>
    decreases pieces
  {
    if pieces == [] then [] else TokensAll(pieces[..|pieces| - 1]) + Tokens(pieces[|pieces| - 1])
  }
}
