/** Documents that the fieldset test judges right whatever else they hold: those whose tags leave nothing open, and
    those without a disabled fieldset. */
module LoginClean {
  import opened Markup
  import opened LoginPage
  import opened LoginTree
  import opened LoginPile
  import opened LoginDisabled
  import W = HTMLWalker

  // ---- When the element stack is the path ----

  /** No self-closing tag leaves its element open; template tags are not piled. */
  predicate Clean(node: Node) {
    match node
    case Closed(name, _) => name == "template"
    case Element(_, _, children) => forall child | child in children :: Clean(child)
    case ShadowRoot(_, children) => forall child | child in children :: Clean(child)
    case _ => true
  }

  predicate AllClean(nodes: seq<Node>) {
    forall node | node in nodes :: Clean(node)
  }

  /** Nothing is left on the pile; at most a legend has been seen. */
  predicate Unchanged(pile: Pile, after: Pile) {
    Grown(pile, after) && |after| == |pile| && Tidy(after)
  }

  lemma {:induction false} UnchangedTwice(a: Pile, b: Pile, c: Pile)
    requires Unchanged(a, b) && Unchanged(b, c)
    ensures Unchanged(a, c)
  {
    GrownTwice(a, b, c);
  }

  lemma {:induction false} CleanLeaves(pile: Pile, node: Node, foreign: W.Stack)
    requires pile != [] && Tidy(pile) && Proper(node, foreign) && Clean(node)
    ensures Unchanged(pile, After(pile, node))
    decreases node, 0
  {
    hide Unchanged, Tidy, Pushed, Popped, AfterAll;
    match node
    case Element(name, attributes, children) =>
      PushedTidy(pile, name, attributes);
      AllCleanLeave(Pushed(pile, name, attributes), children, W.Opened(foreign, name, attributes));
      CleanPops(pile, AfterAll(Pushed(pile, name, attributes), children), name, attributes);
    case ShadowRoot(_, children) => AllCleanLeave(pile, children, foreign);
    case Closed(name, attributes) =>
      TemplateNotPushed(pile, attributes);
      StaysSame(pile);
    case _ => StaysSame(pile);
  }

  /** With nothing left on its element, an end tag takes exactly that back. */
  lemma {:induction false} CleanPops(pile: Pile, inner: Pile, name: string, attributes: Attributes)
    requires pile != [] && Tidy(pile) && name != "template" && Unchanged(Pushed(pile, name, attributes), inner)
    ensures Unchanged(pile, Popped(inner, name))
  {
    if IsVoid(name) {
      NothingPopped(inner, name);
    } else {
      PopStays(inner, name, |pile|);
      assert inner[..|pile|][..|pile| - 1] == Below(Pushed(pile, name, attributes))[..|pile| - 1];
    }
  }

  lemma {:induction false} AllCleanLeave(pile: Pile, nodes: seq<Node>, foreign: W.Stack)
    requires pile != [] && Tidy(pile) && AllProper(nodes, foreign) && AllClean(nodes)
    ensures Unchanged(pile, AfterAll(pile, nodes))
    decreases nodes, 1
  {
    hide Unchanged;
    if nodes == [] {
      StaysSame(pile);
    } else {
      var front, last := nodes[..|nodes| - 1], nodes[|nodes| - 1];
      AllCleanLeave(pile, front, foreign);
      UnchangedTidy(pile, AfterAll(pile, front));
      CleanLeaves(AfterAll(pile, front), last, foreign);
      UnchangedTwice(pile, AfterAll(pile, front), After(AfterAll(pile, front), last));
    }
  }

  lemma {:induction false} StaysSame(pile: Pile)
    requires pile != [] && Tidy(pile)
    ensures Unchanged(pile, pile)
  {
  }

  lemma {:induction false} UnchangedTidy(pile: Pile, after: Pile)
    requires Unchanged(pile, after)
    ensures Tidy(after)
  {
  }

  /** The open elements of a path; templates are not piled, and neither are foreign elements with a void name. */
  function PathNames(path: Path): seq<string> {
    if path == [] then []
    else (if IsVoid(path[0].name) || path[0].name == "template" then [] else [path[0].name]) + PathNames(path[1..])
  }

  lemma {:induction false} NamesPushed(pile: Pile, after: Pile, name: string, attributes: Attributes)
    requires Unchanged(pile, after)
    ensures Names(Pushed(after, name, attributes))
         == Names(pile) + if IsVoid(name) || name == "template" then [] else [name]
  {
    assert Names(after) == Names(pile);
  }

  lemma {:induction false} CleanIsPath(pile: Pile, foreign: W.Stack, document: seq<Node>, root: seq<Node>, path: Path)
    requires pile != [] && Tidy(pile) && AllProper(document, foreign) && AllClean(document) && At(document, root, path)
    ensures Names(PileAt(pile, root, path)) == Names(pile) + PathNames(path)
    decreases |path|
  {
    hide Unchanged, Pushed, Names, PathNames, Tidy, AfterAll;
    ProperFront(document, foreign, |root|);
    AllCleanLeave(pile, root, foreign);
    var here := AfterAll(pile, root);
    NoPathNames();
    if path == [] {
      NamesSame(pile, here);
      assert Names(pile) + [] == Names(pile);
    } else {
      var f := path[0];
      ChildrenProper(document, foreign, root, path);
      assert Clean(document[|root|]);
      UnchangedTidy(pile, here);
      PushedTidy(here, f.name, f.attributes);
      NamesPushed(pile, here, f.name, f.attributes);
      CleanIsPath(Pushed(here, f.name, f.attributes), Inside(foreign, f.name, f.attributes),
                  document[|root|].children, f.before, path[1..]);
      assert [f] + path[1..] == path;
      PathNamesDeeper(Names(pile), f, path[1..]);
    }
  }

  lemma {:induction false} NoPathNames()
    ensures PathNames([]) == []
  {
  }

  lemma {:induction false} NamesSame(pile: Pile, after: Pile)
    requires Unchanged(pile, after)
    ensures Names(after) == Names(pile)
  {
  }

  lemma {:induction false} PathNamesDeeper(names: seq<string>, f: Frame, deeper: Path)
    ensures names + PathNames([f] + deeper)
         == names + (if IsVoid(f.name) || f.name == "template" then [] else [f.name]) + PathNames(deeper)
  {
    assert ([f] + deeper)[1..] == deeper;
  }

  lemma {:induction false} SomePositionOff(pile: Pile, foreign: W.Stack, nodes: seq<Node>)
    returns (root: seq<Node>, path: Path)
    requires pile != [] && Tidy(pile) && AllProper(nodes, foreign) && !AllClean(nodes)
    ensures At(nodes, root, path) && Names(PileAt(pile, root, path)) != Names(pile) + PathNames(path)
    decreases nodes
  {
    hide Unchanged, Pushed, Tidy;
    var front, last := nodes[..|nodes| - 1], nodes[|nodes| - 1];
    ProperFront(nodes, foreign, |front|);
    assert Proper(last, foreign) && nodes == front + [last];
    if !AllClean(front) {
      root, path := SomePositionOff(pile, foreign, front);
      AtLonger(front, nodes, root, path);
    } else {
      AllCleanLeave(pile, front, foreign);
      var here := AfterAll(pile, front);
      UnchangedTidy(pile, here);
      assert !Clean(last);
      if last.Closed? {
        root, path := nodes, [];
        NamesPushed(pile, here, last.name, last.attributes);
        assert |Names(pile) + PathNames([])| == |Names(pile)|;
        assert PileAt(pile, nodes, []) == AfterAll(pile, nodes) == After(here, last);
      } else {
        var f := Frame(if last.ShadowRoot? then "template" else last.name, last.attributes, []);
        NamesPushed(pile, here, f.name, f.attributes);
        PushedTidy(here, f.name, f.attributes);
        var before, deeper :=
          SomePositionOff(Pushed(here, f.name, f.attributes), Inside(foreign, f.name, f.attributes), last.children);
        f := f.(before := before);
        root, path := front, [f] + deeper;
        AtDeeper(false, false, pile, foreign, nodes, f, deeper);
        PathNamesDeeper(Names(pile), f, deeper);
      }
    }
  }

  /** The element stack is the path from the root at every position exactly when no self-closing non-void tag,
      template tags aside, stands in the document. */
  lemma {:induction false} StackIsPathIffClean(document: seq<Node>)
    requires AllProper(document, [])
    ensures (forall root, path | At(document, root, path) ::
              Walk(BLANK.nesting, Prefix(root, path)).elements == PathNames(path))
       <==> AllClean(document)
  {
    hide Sane, Clean;
    Floor();
    forall root, path | At(document, root, path)
      ensures Walk(BLANK.nesting, Prefix(root, path)).elements == Names(PileAt([FLOOR], root, path))
    {
      StacksArePile([FLOOR], [], document, root, path);
    }
    assert Names([FLOOR]) == [] && Tidy([FLOOR]);
    if AllClean(document) {
      forall root, path | At(document, root, path) ensures Names(PileAt([FLOOR], root, path)) == PathNames(path) {
        CleanIsPath([FLOOR], [], document, root, path);
      }
    } else {
      var root, path := SomePositionOff([FLOOR], [], document);
      assert Names([FLOOR]) + PathNames(path) == PathNames(path);
    }
  }

  // ---- Clean documents are judged right ----

  /** Beside being clean: no disabled fieldset stands in foreign content, and no shadow root below a disabled one. */
  predicate Honest(barred: bool, foreign: W.Stack, node: Node)
    decreases node
  {
    match node
    case Closed(name, _) => name == "template"
    case Element(name, attributes, children) =>
      && (name == "fieldset" && "disabled" in attributes ==> W.Current(foreign).HTML?)
      && forall child | child in children ::
        Honest(barred || Bars(foreign, name, attributes), W.Opened(foreign, name, attributes), child)
    case ShadowRoot(_, children) => !barred && forall child | child in children :: Honest(false, foreign, child)
    case _ => true
  }

  predicate AllHonest(barred: bool, foreign: W.Stack, nodes: seq<Node>) {
    forall node | node in nodes :: Honest(barred, foreign, node)
  }

  lemma {:induction false} HonestIsClean(barred: bool, foreign: W.Stack, node: Node)
    requires Honest(barred, foreign, node)
    ensures Clean(node)
    decreases node
  {
    match node
    case Element(name, attributes, children) =>
      forall child | child in children ensures Clean(child) {
        HonestIsClean(barred || Bars(foreign, name, attributes), W.Opened(foreign, name, attributes), child);
      }
    case ShadowRoot(_, children) =>
      forall child | child in children ensures Clean(child) {
        HonestIsClean(false, foreign, child);
      }
    case _ =>
  }

  lemma {:induction false} HonestLess(foreign: W.Stack, node: Node)
    ensures Honest(true, foreign, node) ==> Honest(false, foreign, node)
    decreases node
  {
    if node.Element? {
      var inner := W.Opened(foreign, node.name, node.attributes);
      forall child | child in node.children ensures Honest(true, inner, child) ==> Honest(false, inner, child) {
        HonestLess(inner, child);
      }
    }
  }

  /** A disabled fieldset has seen a legend exactly when one of its children so far is one. */
  lemma {:induction false} LegendSeen(under: Item, foreign: W.Stack, nodes: seq<Node>)
    requires AllProper(nodes, foreign) && AllHonest(true, foreign, nodes) && Tidy([under]) && under.name == "fieldset"
    requires W.Current(foreign).HTML?
    ensures |Left(under, nodes)| == 1
    ensures Left(under, nodes)[0] == under.(seen := under.seen || HasLegend(nodes))
  {
    if nodes != [] {
      var front, last := nodes[..|nodes| - 1], nodes[|nodes| - 1];
      LegendSeen(under, foreign, front);
      var left := Left(under, front);
      assert Honest(true, foreign, last) && Proper(last, foreign) && nodes == front + [last];
      HonestIsClean(true, foreign, last);
      CleanLeaves(left, last, foreign);
      if last.Element? {
        LegendMarks(left, last, foreign);
      }
    }
  }

  lemma {:induction false} LegendMarks(pile: Pile, node: Node, foreign: W.Stack)
    requires |pile| == 1 && Tidy(pile) && Proper(node, foreign) && Clean(node) && pile[0].name == "fieldset"
    requires node.Element? && W.Current(foreign).HTML?
    ensures |After(pile, node)| == 1 && After(pile, node)[0].seen == (pile[0].seen || node.name == "legend")
  {
    var pushed := Pushed(pile, node.name, node.attributes);
    PushedTidy(pile, node.name, node.attributes);
    AllCleanLeave(pushed, node.children, W.Opened(foreign, node.name, node.attributes));
    CleanLeaves(pile, node, foreign);
    PopStays(AfterAll(pushed, node.children), node.name, 1);
  }

  lemma {:induction false} HonestIsRight(off: bool, bars: bool, under: Item, foreign: W.Stack, nodes: seq<Node>)
    requires AllProper(nodes, foreign) && AllHonest(off || bars, foreign, nodes) && Tidy([under])
    requires bars <==> under.disabled
    requires bars ==> under.name == "fieldset" && !under.seen && W.Current(foreign).HTML?
    ensures Right(off, bars, under, foreign, nodes)
    decreases nodes, 1
  {
    HonestGap(off, bars, under, foreign, nodes);
    if nodes != [] {
      var front, last := nodes[..|nodes| - 1], nodes[|nodes| - 1];
      assert Honest(off || bars, foreign, last) && Proper(last, foreign);
      HonestIsRight(off, bars, under, foreign, front);
      HonestNode(off, bars, under, foreign, front, last);
    }
  }

  lemma {:induction false} HonestGap(off: bool, bars: bool, under: Item, foreign: W.Stack, nodes: seq<Node>)
    requires AllProper(nodes, foreign) && AllHonest(off || bars, foreign, nodes) && Tidy([under])
    requires bars ==> under.name == "fieldset" && !under.seen && W.Current(foreign).HTML?
    requires bars <==> under.disabled
    ensures bars <==> Standing(Left(under, nodes))
    ensures |Left(under, nodes)| == 1 && Same(under, Left(under, nodes)[0])
    ensures bars ==> Left(under, nodes)[0].seen == HasLegend(nodes)
  {
    forall node | node in nodes ensures Clean(node) {
      HonestIsClean(off || bars, foreign, node);
    }
    AllCleanLeave([under], nodes, foreign);
    var left := Left(under, nodes);
    assert Stands(left, 0) <==> bars;
    if bars {
      LegendSeen(under, foreign, nodes);
    }
  }

  lemma {:induction false} HonestEnters(bars: bool, under: Item, name: string, attributes: Attributes, front: seq<Node>)
    requires (bars <==> under.disabled) && name != "template"
    requires bars ==> under.name == "fieldset" && under.seen == HasLegend(front) && !IsVoid(name)
    ensures StillBars(bars, name, front) <==> StandingBelow(Pushed([under], name, attributes))
  {
    hide HasLegend;
    var pile := Pushed([under], name, attributes);
    if IsVoid(name) {
      assert pile == [under];
    } else {
      assert pile == [Under(under, name), Added(under, name, attributes)];
      assert Stands(pile, 0) <==> StillBars(bars, name, front);
    }
  }

  lemma {:induction false} HonestNode(off: bool, bars: bool, under: Item, foreign: W.Stack, front: seq<Node>,
                                      node: Node)
    requires AllProper(front, foreign) && AllHonest(off || bars, foreign, front) && Tidy([under])
    requires Proper(node, foreign) && Honest(off || bars, foreign, node)
    requires bars <==> under.disabled
    requires bars ==> under.name == "fieldset" && !under.seen && W.Current(foreign).HTML?
    ensures NodeRight(off, bars, under, foreign, front, node)
    decreases node, 0
  {
    HonestGap(off, bars, under, foreign, front);
    var left := Left(under, front);
    match node
    case Element(name, attributes, children) =>
      var pile := Pushed(left, name, attributes);
      HonestEnters(bars, left[0], name, attributes, front);
      assert left == [left[0]];
      forall child | child in children
        ensures Honest(off || StillBars(bars, name, front) || Bars(foreign, name, attributes),
                       W.Opened(foreign, name, attributes), child)
      {
        HonestLess(W.Opened(foreign, name, attributes), child);
      }
      HonestIsRight(off || StillBars(bars, name, front), Bars(foreign, name, attributes), Topmost(pile),
                    W.Opened(foreign, name, attributes), children);
    case ShadowRoot(_, children) => HonestIsRight(false, false, left[0], foreign, children);
    case _ =>
  }

  /** So is every honest document. */
  lemma {:induction false} HonestDocumentIsRight(document: seq<Node>)
    requires AllProper(document, []) && AllHonest(false, [], document)
    ensures RightDocument(document)
  {
    HonestIsRight(false, false, FLOOR, [], document);
  }

  /** Without `svg`, `math` and shadow roots. */
  predicate Plain(node: Node) {
    match node
    case Closed(name, _) => name != "svg" && name != "math"
    case Element(name, _, children) =>
      name != "svg" && name != "math" && forall child | child in children :: Plain(child)
    case ShadowRoot(_, _) => false
    case _ => true
  }

  lemma {:induction false} PlainIsHonest(barred: bool, node: Node)
    requires Proper(node, []) && Plain(node)
    ensures Honest(barred, [], node)
    decreases node
  {
    match node
    case Element(name, attributes, children) =>
      forall child | child in children ensures Honest(barred || Bars([], name, attributes), [], child) {
        PlainIsHonest(barred || Bars([], name, attributes), child);
      }
    case _ =>
  }

  /** Pages without foreign content and live shadow roots are judged right, and their stack is the path. */
  lemma {:induction false} PlainDocumentIsRight(document: seq<Node>)
    requires AllProper(document, []) && forall node | node in document :: Plain(node)
    ensures RightDocument(document) && AllClean(document)
  {
    forall node | node in document ensures Honest(false, [], node) && Clean(node) {
      PlainIsHonest(false, node);
      HonestIsClean(false, [], node);
    }
    HonestDocumentIsRight(document);
  }

  // ---- So are documents without a disabled fieldset ----

  predicate Undisabled(node: Node) {
    match node
    case Closed(name, attributes) => name == "fieldset" ==> "disabled" !in attributes
    case Element(name, attributes, children) =>
      && (name == "fieldset" ==> "disabled" !in attributes)
      && forall child | child in children :: Undisabled(child)
    case ShadowRoot(_, children) => forall child | child in children :: Undisabled(child)
    case _ => true
  }

  predicate AllUndisabled(nodes: seq<Node>) {
    forall node | node in nodes :: Undisabled(node)
  }

  predicate NoneDisabled(pile: Pile) {
    forall item | item in pile :: !item.disabled
  }

  lemma {:induction false} PushedNoneDisabled(pile: Pile, name: string, attributes: Attributes)
    requires pile != [] && NoneDisabled(pile) && (name == "fieldset" ==> "disabled" !in attributes)
    ensures NoneDisabled(Pushed(pile, name, attributes))
  {
  }

  lemma {:induction false} UndisabledLeaves(pile: Pile, node: Node)
    requires pile != [] && NoneDisabled(pile) && Undisabled(node)
    ensures NoneDisabled(After(pile, node))
    decreases node, 0
  {
    match node
    case Element(name, attributes, children) => UndisabledLeave(Pushed(pile, name, attributes), children);
    case ShadowRoot(_, children) => UndisabledLeave(pile, children);
    case _ =>
  }

  lemma {:induction false} UndisabledLeave(pile: Pile, nodes: seq<Node>)
    requires pile != [] && NoneDisabled(pile) && AllUndisabled(nodes)
    ensures NoneDisabled(AfterAll(pile, nodes))
    decreases nodes, 1
  {
    if nodes != [] {
      UndisabledLeave(pile, nodes[..|nodes| - 1]);
      UndisabledLeaves(AfterAll(pile, nodes[..|nodes| - 1]), nodes[|nodes| - 1]);
    }
  }

  lemma {:induction false} UndisabledIsRight(under: Item, foreign: W.Stack, nodes: seq<Node>)
    requires AllUndisabled(nodes) && !under.disabled
    ensures Right(false, false, under, foreign, nodes)
    decreases nodes
  {
    UndisabledLeave([under], nodes);
    if nodes != [] {
      var front, node := nodes[..|nodes| - 1], nodes[|nodes| - 1];
      UndisabledIsRight(under, foreign, front);
      UndisabledLeave([under], front);
      var left := Left(under, front);
      assert Undisabled(node);
      match node
      case Element(name, attributes, children) =>
        var pile := Pushed(left, name, attributes);
        PushedNoneDisabled(left, name, attributes);
        UndisabledIsRight(Topmost(pile), W.Opened(foreign, name, attributes), children);
      case ShadowRoot(_, children) => UndisabledIsRight(Topmost(left), foreign, children);
      case _ =>
    }
  }

  /** Self-closing tags do no harm where no fieldset is disabled. */
  lemma {:induction false} UndisabledDocumentIsRight(document: seq<Node>)
    requires AllUndisabled(document)
    ensures RightDocument(document)
  {
    UndisabledIsRight(FLOOR, [], document);
  }
}
