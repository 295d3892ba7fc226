/** Documents as trees: how they are written, the positions in them, and where the tree disables a control. */
module LoginTree {
  import opened Markup
  import W = HTMLWalker

  /** `Closed` is a self-closing tag of a non-void element, which only foreign content keeps; `ShadowRoot` is a
      template that asks for a live shadow root. */
  datatype Node =
    | Leaf(text: string)
    | Void(name: string, attributes: Attributes, slash: bool)
    | Closed(name: string, attributes: Attributes)
    | Element(name: string, attributes: Attributes, children: seq<Node>)
    | ShadowRoot(attributes: Attributes, children: seq<Node>)

  function Tokens(node: Node): seq<Token>
    decreases node
  {
    match node
    case Leaf(text) => [Text(text)]
    case Void(name, attributes, slash) => [if slash then SelfClosing(name, attributes) else Start(name, attributes)]
    case Closed(name, attributes) => [SelfClosing(name, attributes)]
    case Element(name, attributes, children) => [Start(name, attributes)] + TokensAll(children) + [End(name)]
    case ShadowRoot(attributes, children) => [Start("template", attributes)] + TokensAll(children) + [End("template")]
  }

  function TokensAll(nodes: seq<Node>): seq<Token>
    decreases nodes
  {
    if nodes == [] then [] else TokensAll(nodes[..|nodes| - 1]) + Tokens(nodes[|nodes| - 1])
  }

  /** In foreign content a breakout tag would end it, so it is no child there. */
  predicate Fits(foreign: W.Stack, name: string, attributes: Attributes) {
    W.Current(foreign).HTML? || !W.Breakout(name, attributes)
  }

  /** The node can stand below the open foreign elements `foreign`: HTML void elements have no end tag, and only
      foreign elements and their roots keep a slash. */
  predicate Proper(node: Node, foreign: W.Stack) {
    match node
    case Leaf(_) => true
    case Void(name, attributes, slash) =>
      IsVoid(name) && Fits(foreign, name, attributes) && (slash || W.Current(foreign).HTML?)
    case Closed(name, attributes) =>
      !IsVoid(name) && Fits(foreign, name, attributes) && W.KeepsSlash(foreign, name)
    case Element(name, attributes, children) =>
      && name != "template" && Fits(foreign, name, attributes) && (IsVoid(name) ==> !W.Current(foreign).HTML?)
      && forall child | child in children :: Proper(child, W.Opened(foreign, name, attributes))
    case ShadowRoot(attributes, children) =>
      && W.Current(foreign).HTML? && Shadow(attributes)
      && forall child | child in children :: Proper(child, foreign)
  }

  predicate AllProper(nodes: seq<Node>, foreign: W.Stack) {
    forall node | node in nodes :: Proper(node, foreign)
  }

  lemma {:induction false} ProperFront(nodes: seq<Node>, foreign: W.Stack, k: nat)
    requires AllProper(nodes, foreign) && k <= |nodes|
    ensures AllProper(nodes[..k], foreign)
  {
  }

  // ---- Positions in a document ----

  /** An element or shadow root on the path from the root, the latter under the name of its template, with the
      siblings before the next step of the path. */
  datatype Frame = Frame(name: string, attributes: Attributes, before: seq<Node>)

  type Path = seq<Frame>

  /** Everything in the document before the position. */
  function Prefix(root: seq<Node>, path: Path): seq<Token>
    decreases |path|
  {
    TokensAll(root) +
    if path == [] then [] else [Start(path[0].name, path[0].attributes)] + Prefix(path[0].before, path[1..])
  }

  /** The node is what the frame is on the path. */
  predicate Opens(node: Node, f: Frame) {
    || (node.Element? && node.name == f.name && node.attributes == f.attributes)
    || (node.ShadowRoot? && f.name == "template" && node.attributes == f.attributes)
  }

  /** The position lies in the document. */
  predicate At(document: seq<Node>, root: seq<Node>, path: Path)
    decreases |path|
  {
    && |root| <= |document| && document[..|root|] == root
    && (path != [] ==>
          && |root| < |document| && Opens(document[|root|], path[0])
          && At(document[|root|].children, path[0].before, path[1..]))
  }

  /** The open foreign elements inside a frame. */
  function Inside(foreign: W.Stack, name: string, attributes: Attributes): W.Stack {
    if name == "template" then foreign else W.Opened(foreign, name, attributes)
  }

  // ---- Where the tree disables a control ----

  predicate HasLegend(nodes: seq<Node>) {
    exists node | node in nodes :: node.Element? && node.name == "legend"
  }

  /** The path runs through the first legend child of its i-th element. */
  predicate InFirstLegend(path: Path, i: nat)
    requires i < |path|
  {
    i + 1 < |path| && path[i + 1].name == "legend" && !HasLegend(path[i].before)
  }

  /** The open foreign elements around the i-th step of the path. */
  function Around(foreign: W.Stack, path: Path, i: nat): W.Stack
    requires i <= |path|
    decreases i
  {
    if i == 0 then foreign else Around(Inside(foreign, path[0].name, path[0].attributes), path[1..], i - 1)
  }

  /** An HTML fieldset with the attribute; foreign elements of that name disable nothing. */
  predicate Bars(foreign: W.Stack, name: string, attributes: Attributes) {
    name == "fieldset" && "disabled" in attributes && W.Current(foreign).HTML?
  }

  /** The i-th step disables the controls at the end of the path: no shadow root lies between. */
  predicate DisabledBy(foreign: W.Stack, path: Path, i: nat)
    requires i < |path|
  {
    && Bars(Around(foreign, path, i), path[i].name, path[i].attributes) && !InFirstLegend(path, i)
    && forall k | i < k < |path| :: path[k].name != "template"
  }

  /** HTML Standard, "Enabling and disabling form controls: the disabled attribute": a control is disabled as a
      descendant of an HTML fieldset with the attribute, unless within that fieldset's first legend child. */
  predicate TreeDisabled(path: Path) {
    exists i | 0 <= i < |path| :: DisabledBy([], path, i)
  }

  /** The same, step by step from the root: `off` says that something above the innermost element disables, `bars`
      that the innermost element does, `root` are the siblings before the next step. */
  predicate Verdict(off: bool, bars: bool, foreign: W.Stack, root: seq<Node>, path: Path)
    decreases |path|
  {
    if path == [] then off || bars
    else
      var f := path[0];
      if f.name == "template" then Verdict(false, false, foreign, f.before, path[1..])
      else Verdict(off || StillBars(bars, f.name, root), Bars(foreign, f.name, f.attributes),
                   W.Opened(foreign, f.name, f.attributes), f.before, path[1..])
  }

  /** A fieldset goes on disabling below a child, unless that is its first legend. */
  predicate StillBars(bars: bool, child: string, before: seq<Node>) {
    bars && !(child == "legend" && !HasLegend(before))
  }

  predicate NoRoot(path: Path) {
    forall k | 0 <= k < |path| :: path[k].name != "template"
  }

  lemma {:induction false} VerdictIs(off: bool, bars: bool, foreign: W.Stack, root: seq<Node>, path: Path)
    ensures Verdict(off, bars, foreign, root, path) <==>
      || (NoRoot(path) && (off || (if path == [] then bars else StillBars(bars, path[0].name, root))))
      || exists i | 0 <= i < |path| :: DisabledBy(foreign, path, i)
    decreases |path|
  {
    if path != [] {
      var f, rest := path[0], path[1..];
      var inner := Inside(foreign, f.name, f.attributes);
      if f.name == "template" {
        VerdictIs(false, false, foreign, f.before, rest);
      } else {
        VerdictIs(off || StillBars(bars, f.name, root), Bars(foreign, f.name, f.attributes), inner, f.before, rest);
      }
      ShiftedDisabled(foreign, path);
      FirstDisabled(foreign, path);
      assert NoRoot(path) <==> f.name != "template" && NoRoot(rest) by { ShiftedRoots(path); }
    }
  }

  lemma {:induction false} ShiftedRoots(path: Path)
    requires path != []
    ensures NoRoot(path) <==> path[0].name != "template" && NoRoot(path[1..])
  {
    if path[0].name != "template" && NoRoot(path[1..]) {
      forall k | 0 <= k < |path| ensures path[k].name != "template" {
        if k > 0 { assert path[k] == path[1..][k - 1]; }
      }
    }
  }

  lemma {:induction false} DisabledShift(foreign: W.Stack, path: Path, i: nat)
    requires i + 1 < |path|
    ensures DisabledBy(foreign, path, i + 1) <==>
      DisabledBy(Inside(foreign, path[0].name, path[0].attributes), path[1..], i)
  {
    var rest := path[1..];
    assert Around(foreign, path, i + 1) == Around(Inside(foreign, path[0].name, path[0].attributes), rest, i);
    assert forall k | i < k < |rest| :: rest[k] == path[k + 1];
    assert forall k | i + 1 < k < |path| :: path[k] == rest[k - 1];
    assert InFirstLegend(path, i + 1) == InFirstLegend(rest, i);
  }

  lemma {:induction false} ShiftedDisabled(foreign: W.Stack, path: Path)
    requires path != []
    ensures (exists i | 0 <= i < |path| :: DisabledBy(foreign, path, i)) <==>
      || DisabledBy(foreign, path, 0)
      || exists i | 0 <= i < |path| - 1 :: DisabledBy(Inside(foreign, path[0].name, path[0].attributes), path[1..], i)
  {
    hide DisabledBy;
    var inner, rest := Inside(foreign, path[0].name, path[0].attributes), path[1..];
    if i: nat :| i < |path| && DisabledBy(foreign, path, i) && i > 0 {
      DisabledShift(foreign, path, i - 1);
    }
    if i: nat :| i < |path| - 1 && DisabledBy(inner, rest, i) {
      DisabledShift(foreign, path, i);
    }
  }

  lemma {:induction false} FirstDisabled(foreign: W.Stack, path: Path)
    requires path != []
    ensures var f := path[0];
      DisabledBy(foreign, path, 0) <==>
        && NoRoot(path[1..])
        && if |path| == 1 then Bars(foreign, f.name, f.attributes)
           else StillBars(Bars(foreign, f.name, f.attributes), path[1].name, f.before)
  {
    assert Around(foreign, path, 0) == foreign;
    forall k | 0 < k < |path| ensures path[k] == path[1..][k - 1] {
    }
    assert forall k | 0 <= k < |path| - 1 :: path[1..][k] == path[k + 1];
  }

  lemma {:induction false} VerdictIsTreeDisabled(root: seq<Node>, path: Path)
    ensures Verdict(false, false, [], root, path) <==> TreeDisabled(path)
  {
    VerdictIs(false, false, [], root, path);
  }
}
