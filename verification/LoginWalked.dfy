/** Documents and the walker: a proper document is handed on as it is written. */
module LoginWalked {
  import opened Markup
  import opened LoginTree
  import W = HTMLWalker

  /** No HTML element has the name of a foreign element around it; its end tag would close that one in the walker. */
  predicate Apart(node: Node, foreign: W.Stack)
    decreases node
  {
    match node
    case Element(name, attributes, children) =>
      && (W.Opened(foreign, name, attributes) == foreign ==> Unnamed(foreign, name))
      && forall child | child in children :: Apart(child, W.Opened(foreign, name, attributes))
    case ShadowRoot(_, children) =>
      Unnamed(foreign, "template") && forall child | child in children :: Apart(child, foreign)
    case _ => true
  }

  predicate AllApart(nodes: seq<Node>, foreign: W.Stack) {
    forall node | node in nodes :: Apart(node, foreign)
  }

  predicate Unnamed(foreign: W.Stack, name: string) {
    forall frame | frame in foreign :: frame.name != name
  }

  /** The walker from an arbitrary stack on. */
  function WalkOn(stack: W.Stack, tokens: seq<Token>): (W.Stack, seq<Token>) {
    if tokens == [] then (stack, [])
    else
      var (before, handed) := WalkOn(stack, tokens[..|tokens| - 1]);
      var (after, token) := W.Next(before, tokens[|tokens| - 1]);
      (after, handed + [token])
  }

  lemma {:induction false} WalkOnIsWalk(tokens: seq<Token>)
    ensures WalkOn([], tokens) == W.Walk(tokens)
  {
    if tokens != [] {
      WalkOnIsWalk(tokens[..|tokens| - 1]);
    }
  }

  lemma {:induction false} WalkOnSplit(stack: W.Stack, a: seq<Token>, b: seq<Token>)
    ensures var first := WalkOn(stack, a);
      var second := WalkOn(first.0, b);
      WalkOn(stack, a + b) == (second.0, first.1 + second.1)
    decreases |b|
  {
    if b == [] {
      assert a + b == a && WalkOn(stack, a).1 + [] == WalkOn(stack, a).1;
    } else {
      hide W.Next;
      var front, last := b[..|b| - 1], b[|b| - 1];
      assert (a + b)[..|a + b| - 1] == a + front && (a + b)[|a + b| - 1] == last;
      WalkOnSplit(stack, a, front);
      var first := WalkOn(stack, a);
      var second := WalkOn(first.0, front);
      var next := W.Next(second.0, last);
      assert WalkOn(stack, a + b) == (next.0, (first.1 + second.1) + [next.1]);
      assert WalkOn(first.0, b) == (next.0, second.1 + [next.1]);
      assert (first.1 + second.1) + [next.1] == first.1 + (second.1 + [next.1]);
    }
  }

  lemma {:induction false} WalkOnOne(stack: W.Stack, token: Token)
    ensures WalkOn(stack, [token]) == (W.Next(stack, token).0, [W.Next(stack, token).1])
  {
    assert [token][..0] == [] && WalkOn(stack, []) == (stack, []);
    assert [] + [W.Next(stack, token).1] == [W.Next(stack, token).1];
  }

  lemma {:induction false} CloseOpened(foreign: W.Stack, name: string, attributes: Attributes)
    requires W.Opened(foreign, name, attributes) == foreign ==> Unnamed(foreign, name)
    ensures W.Close(W.Opened(foreign, name, attributes), name) == foreign
  {
    if W.Opened(foreign, name, attributes) == foreign {
      W.CloseNone(foreign, name);
    }
  }

  lemma {:induction false} NodeHandedOn(foreign: W.Stack, node: Node)
    requires Proper(node, foreign) && Apart(node, foreign)
    ensures WalkOn(foreign, Tokens(node)) == (foreign, Tokens(node))
    decreases node, 0
  {
    hide WalkOn, W.Opened, W.Close, W.Breakout;
    match node
    case Element(name, attributes, children) =>
      InElement(foreign, name, attributes, children);
      CloseOpened(foreign, name, attributes);
    case ShadowRoot(attributes, children) =>
      TemplateOpensNone(foreign, attributes);
      InElement(foreign, "template", attributes, children);
      CloseOpened(foreign, "template", attributes);
    case Leaf(text) => WalkOnOne(foreign, Text(text));
    case Closed(name, attributes) => WalkOnOne(foreign, SelfClosing(name, attributes));
    case Void(name, attributes, slash) =>
      if !slash { VoidOpensNone(foreign, name, attributes); }
      WalkOnOne(foreign, Tokens(node)[0]);
  }

  /** From a start tag to its end tag. */
  lemma {:induction false} InElement(foreign: W.Stack, name: string, attributes: Attributes, children: seq<Node>)
    requires Fits(foreign, name, attributes)
    requires AllProper(children, W.Opened(foreign, name, attributes))
      && AllApart(children, W.Opened(foreign, name, attributes))
    ensures var tokens := [Start(name, attributes)] + TokensAll(children) + [End(name)];
      WalkOn(foreign, tokens) == (W.Close(W.Opened(foreign, name, attributes), name), tokens)
    decreases children, 2
  {
    hide WalkOn, W.Opened, W.Close, W.Breakout, AllProper, AllApart;
    var inner := W.Opened(foreign, name, attributes);
    WalkOnOne(foreign, Start(name, attributes));
    AllHandedOn(inner, children);
    WalkOnSplit(foreign, [Start(name, attributes)], TokensAll(children));
    WalkOnSplit(foreign, [Start(name, attributes)] + TokensAll(children), [End(name)]);
    WalkOnOne(inner, End(name));
  }

  lemma {:induction false} TemplateOpensNone(foreign: W.Stack, attributes: Attributes)
    requires W.Current(foreign).HTML?
    ensures W.Opened(foreign, "template", attributes) == foreign
  {
  }

  lemma {:induction false} VoidOpensNone(foreign: W.Stack, name: string, attributes: Attributes)
    requires W.Current(foreign).HTML? && IsVoid(name)
    ensures W.Opened(foreign, name, attributes) == foreign
  {
  }

  lemma {:induction false} AllHandedOn(foreign: W.Stack, nodes: seq<Node>)
    requires AllProper(nodes, foreign) && AllApart(nodes, foreign)
    ensures WalkOn(foreign, TokensAll(nodes)) == (foreign, TokensAll(nodes))
    decreases nodes, 1
  {
    hide WalkOn, Tokens;
    if nodes == [] {
      NoneWalked(foreign);
    } else {
      var front, last := nodes[..|nodes| - 1], nodes[|nodes| - 1];
      AllHandedOn(foreign, front);
      WalkOnSplit(foreign, TokensAll(front), Tokens(last));
      NodeHandedOn(foreign, last);
    }
  }

  lemma {:induction false} NoneWalked(stack: W.Stack)
    ensures WalkOn(stack, []) == (stack, [])
  {
  }

  /** The walker hands the written document on unchanged and ends outside foreign content. */
  lemma {:induction false} DocumentIsHandedOn(document: seq<Node>)
    requires AllProper(document, []) && AllApart(document, [])
    ensures W.Walk(TokensAll(document)) == ([], TokensAll(document))
  {
    WalkOnIsWalk(TokensAll(document));
    AllHandedOn([], document);
  }
}
