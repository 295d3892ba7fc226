/** When the fieldset test agrees with the document tree: exactly on the documents whose parts leave nothing on the
    pile that disables, or enables, more than the tree does. */
module LoginDisabled {
  import opened Markup
  import opened LoginPage
  import opened LoginTree
  import opened LoginPile
  import W = HTMLWalker

  // ---- What the test finds on a pile ----

  /** The item disables what is above it: a disabled fieldset without its first legend right above. */
  predicate Stands(pile: Pile, i: nat)
    requires i < |pile|
  {
    pile[i].disabled && !(i + 1 < |pile| && pile[i + 1].first)
  }

  predicate Standing(pile: Pile) {
    exists i | 0 <= i < |pile| :: Stands(pile, i)
  }

  predicate StandingBelow(pile: Pile) {
    exists i | 0 <= i < |pile| - 1 :: Stands(pile, i)
  }

  /** The loop over the fieldset stack reads this off. */
  lemma {:induction false} TestIsStanding(pile: Pile)
    requires Sane(pile)
    ensures InDisabledFieldset(Stacks(pile)) <==> Standing(pile)
  {
    EntriesAre(pile, |pile|);
    if InDisabledFieldset(Stacks(pile)) {
      var e :| e in Stacks(pile).fieldsets && e.disabled && !e.firstLegendOpen;
      assert e == Entry(pile, e.depth + 1) && Stands(pile, e.depth + 1);
    }
    if Standing(pile) {
      var i :| 0 <= i < |pile| && Stands(pile, i);
      assert Entry(pile, i) in Stacks(pile).fieldsets;
    }
  }

  // ---- A part of a document works on the top of the pile only ----

  /** The same item but for `seen`. */
  predicate Same(a: Item, b: Item) {
    a.(seen := false) == b.(seen := false)
  }

  /** The pile with something more on it. */
  predicate Grown(pile: Pile, more: Pile) {
    && pile != [] && |more| >= |pile| && Below(pile) == more[..|pile| - 1] && Same(Topmost(pile), more[|pile| - 1])
  }

  lemma {:induction false} GrownTwice(a: Pile, b: Pile, c: Pile)
    requires Grown(a, b) && Grown(b, c)
    ensures Grown(a, c)
  {
    if |b| > |a| {
      assert c[|a| - 1] == Below(b)[|a| - 1] == b[|a| - 1];
    }
    assert c[..|a| - 1] == c[..|b| - 1][..|a| - 1] == Below(b)[..|a| - 1] == b[..|a| - 1];
  }

  lemma {:induction false} PushGrows(pile: Pile, name: string, attributes: Attributes)
    requires pile != []
    ensures Grown(pile, Pushed(pile, name, attributes))
  {
  }

  /** What is popped is at or above the item of that name. */
  lemma {:induction false} PopStays(pile: Pile, name: string, k: nat)
    requires 0 < k < |pile| && pile[k].name == name
    ensures |Popped(pile, name)| >= k && Popped(pile, name) == pile[..|Popped(pile, name)|]
    ensures |Popped(pile, name)| < |pile|
  {
    assert Names(pile)[k - 1] == name;
  }

  lemma {:induction false} NothingPopped(pile: Pile, name: string)
    requires pile != [] && forall i | 0 < i < |pile| :: pile[i].name != name
    ensures Popped(pile, name) == pile
  {
  }

  /** The end tag of an element cuts nothing that was there before its start tag. */
  lemma {:induction false} PopGrows(pile: Pile, inner: Pile, name: string)
    requires Grown(pile, inner) && Tidy(inner)
    requires IsVoid(name) || (|inner| > |pile| && inner[|pile|].name == name)
    ensures Grown(pile, Popped(inner, name)) && Tidy(Popped(inner, name))
  {
    if IsVoid(name) {
      NothingPopped(inner, name);
    } else {
      PopStays(inner, name, |pile|);
    }
  }

  lemma {:induction false} AfterGrows(pile: Pile, node: Node, foreign: W.Stack)
    requires pile != [] && Tidy(pile) && Proper(node, foreign)
    ensures Grown(pile, After(pile, node)) && Tidy(After(pile, node))
    decreases node, 0
  {
    hide Grown, Tidy, Pushed, Popped;
    match node
    case Element(name, attributes, children) =>
      var pushed := Pushed(pile, name, attributes);
      PushGrows(pile, name, attributes);
      PushedTidy(pile, name, attributes);
      AllGrow(pushed, children, W.Opened(foreign, name, attributes));
      var inner := AfterAll(pushed, children);
      GrownTwice(pile, pushed, inner);
      if !IsVoid(name) { PushedOn(pile, inner, name, attributes); }
      PopGrows(pile, inner, name);
    case ShadowRoot(_, children) => AllGrow(pile, children, foreign);
    case Closed(name, attributes) =>
      PushGrows(pile, name, attributes);
      PushedTidy(pile, name, attributes);
    case _ => SelfGrown(pile);
  }

  lemma {:induction false} SelfGrown(pile: Pile)
    requires pile != []
    ensures Grown(pile, pile)
  {
  }

  /** The pushed element is still there. */
  lemma {:induction false} PushedOn(pile: Pile, inner: Pile, name: string, attributes: Attributes)
    requires pile != [] && !IsVoid(name) && name != "template" && Grown(Pushed(pile, name, attributes), inner)
    ensures |inner| > |pile| && inner[|pile|].name == name
  {
  }

  lemma {:induction false} AllGrow(pile: Pile, nodes: seq<Node>, foreign: W.Stack)
    requires pile != [] && Tidy(pile) && AllProper(nodes, foreign)
    ensures Grown(pile, AfterAll(pile, nodes)) && Tidy(AfterAll(pile, nodes))
    decreases nodes, 1
  {
    if nodes != [] {
      var front, last := nodes[..|nodes| - 1], nodes[|nodes| - 1];
      AllGrow(pile, front, foreign);
      AfterGrows(AfterAll(pile, front), last, foreign);
      GrownTwice(pile, AfterAll(pile, front), After(AfterAll(pile, front), last));
    }
  }

  lemma {:induction false} PushLocal(base: Pile, pile: Pile, name: string, attributes: Attributes)
    requires pile != []
    ensures Pushed(base + pile, name, attributes) == base + Pushed(pile, name, attributes)
  {
    assert Below(base + pile) == base + Below(pile);
  }

  lemma {:induction false} PopLocal(base: Pile, pile: Pile, name: string, k: nat)
    requires 0 < k < |pile| && pile[k].name == name
    ensures Popped(base + pile, name) == base + Popped(pile, name)
  {
    var all := base + pile;
    var index := LastIndex(Names(pile), name);
    assert Names(pile)[k - 1] == name;
    var high := LastIndex(Names(all), name);
    assert Names(all)[|base| + index] == name;
    assert forall i | 0 <= i < |pile| - 1 :: Names(all)[|base| + i] == Names(pile)[i];
    assert forall i | |base| + index < i < |Names(all)| :: Names(all)[i] == Names(pile)[i - |base|];
    assert high == |base| + index;
    assert all[..high + 1] == base + pile[..index + 1];
  }

  lemma {:induction false} AfterLocal(base: Pile, pile: Pile, node: Node, foreign: W.Stack)
    requires pile != [] && Tidy(base + pile) && Tidy(pile) && Proper(node, foreign)
    ensures After(base + pile, node) == base + After(pile, node)
    decreases node, 0
  {
    hide Tidy, Pushed, AfterAll;
    match node
    case Element(name, attributes, children) =>
      var pushed := Pushed(pile, name, attributes);
      PushLocal(base, pile, name, attributes);
      PushedTidy(pile, name, attributes);
      PushedTidy(base + pile, name, attributes);
      AllLocal(base, pushed, children, W.Opened(foreign, name, attributes));
      PopAfterAll(base, pile, name, attributes, children, W.Opened(foreign, name, attributes));
    case ShadowRoot(_, children) => AllLocal(base, pile, children, foreign);
    case Closed(name, attributes) => PushLocal(base, pile, name, attributes);
    case _ =>
  }

  lemma {:induction false} PopAfterAll(base: Pile, pile: Pile, name: string, attributes: Attributes, nodes: seq<Node>,
                                       foreign: W.Stack)
    requires pile != [] && Tidy(base + pile) && Tidy(pile) && AllProper(nodes, foreign) && name != "template"
    requires AfterAll(base + Pushed(pile, name, attributes), nodes)
      == base + AfterAll(Pushed(pile, name, attributes), nodes)
    ensures Popped(base + AfterAll(Pushed(pile, name, attributes), nodes), name)
         == base + Popped(AfterAll(Pushed(pile, name, attributes), nodes), name)
  {
    hide AfterAll, Popped;
    var pushed := Pushed(pile, name, attributes);
    PushLocal(base, pile, name, attributes);
    PushedTidy(pile, name, attributes);
    PushedTidy(base + pile, name, attributes);
    AllGrow(pushed, nodes, foreign);
    AllGrow(base + pushed, nodes, foreign);
    var inner := AfterAll(pushed, nodes);
    if IsVoid(name) {
      NothingPopped(inner, name);
      NothingPopped(base + inner, name);
    } else {
      assert pushed[|pile|].name == inner[|pile|].name == name;
      PopLocal(base, inner, name, |pile|);
    }
  }

  lemma {:induction false} AllLocal(base: Pile, pile: Pile, nodes: seq<Node>, foreign: W.Stack)
    requires pile != [] && Tidy(base + pile) && Tidy(pile) && AllProper(nodes, foreign)
    ensures AfterAll(base + pile, nodes) == base + AfterAll(pile, nodes)
    decreases nodes, 1
  {
    if nodes != [] {
      var front, last := nodes[..|nodes| - 1], nodes[|nodes| - 1];
      AllLocal(base, pile, front, foreign);
      AllGrow(pile, front, foreign);
      AllGrow(base + pile, front, foreign);
      AfterLocal(base, AfterAll(pile, front), last, foreign);
    }
  }

  // ---- The condition ----

  /** What a part of a document leaves on the pile, the item under it first. */
  function Left(under: Item, nodes: seq<Node>): Pile {
    AfterAll([under], nodes)
  }

  /** Before, after and inside every part of the nodes, what has been left on the pile disables exactly what the tree
      disables. `off` says that something above the parent disables, and then only a shadow root can go wrong;
      `bars` that the parent does; `under` is the item the nodes are put on. */
  predicate Right(off: bool, bars: bool, under: Item, foreign: W.Stack, nodes: seq<Node>)
    decreases nodes, 1
  {
    && (off || (bars <==> Standing(Left(under, nodes))))
    && (nodes != [] ==>
          && Right(off, bars, under, foreign, nodes[..|nodes| - 1])
          && NodeRight(off, bars, under, foreign, nodes[..|nodes| - 1], nodes[|nodes| - 1]))
  }

  predicate NodeRight(off: bool, bars: bool, under: Item, foreign: W.Stack, front: seq<Node>, node: Node)
    decreases node, 0
  {
    match node
    case Element(name, attributes, children) =>
      var pile, inside := Pushed(Left(under, front), name, attributes), StillBars(bars, name, front);
      && (off || (inside <==> StandingBelow(pile)))
      && Right(off || inside, Bars(foreign, name, attributes), Topmost(pile), W.Opened(foreign, name, attributes),
               children)
    case ShadowRoot(_, children) =>
      !off && !bars && Right(false, false, Topmost(Left(under, front)), foreign, children)
    case _ => true
  }

  /** The document is judged as its tree says. */
  predicate RightDocument(document: seq<Node>) {
    Right(false, false, FLOOR, [], document)
  }

  lemma {:induction false} RightFront(off: bool, bars: bool, under: Item, foreign: W.Stack, nodes: seq<Node>, k: nat)
    requires Right(off, bars, under, foreign, nodes) && k <= |nodes|
    ensures Right(off, bars, under, foreign, nodes[..k])
    decreases |nodes|
  {
    if k < |nodes| {
      assert nodes[..|nodes| - 1][..k] == nodes[..k];
      RightFront(off, bars, under, foreign, nodes[..|nodes| - 1], k);
    } else {
      assert nodes[..k] == nodes;
    }
  }

  lemma {:induction false} RightNode(off: bool, bars: bool, under: Item, foreign: W.Stack, nodes: seq<Node>, k: nat)
    requires Right(off, bars, under, foreign, nodes) && k < |nodes|
    ensures NodeRight(off, bars, under, foreign, nodes[..k], nodes[k])
  {
    RightFront(off, bars, under, foreign, nodes, k + 1);
    assert nodes[..k + 1][..k] == nodes[..k];
  }

  // ---- Piles in two parts ----

  lemma {:induction false} StandingSplit(base: Pile, under: Item, pile: Pile)
    requires Grown([under], pile)
    ensures Standing(base + pile) <==> StandingBelow(base + [under]) || Standing(pile)
    ensures StandingBelow(base + pile) <==> StandingBelow(base + [under]) || StandingBelow(pile)
  {
    var all, low := base + pile, base + [under];
    assert pile[0].first == under.first;
    forall i | 0 <= i < |base| ensures Stands(all, i) <==> Stands(low, i) {
      assert all[i] == low[i] == base[i];
      assert i + 1 < |base| ==> all[i + 1] == low[i + 1];
    }
    forall i | 0 <= i < |pile| ensures Stands(all, |base| + i) <==> Stands(pile, i) {
    }
    if Standing(all) {
      var i :| 0 <= i < |all| && Stands(all, i);
      assert i >= |base| ==> Stands(pile, i - |base|);
    }
    if StandingBelow(all) {
      var i :| 0 <= i < |all| - 1 && Stands(all, i);
      assert i >= |base| ==> Stands(pile, i - |base|);
    }
  }

  lemma {:induction false} PartsJoin(base: Pile, pile: Pile)
    requires pile != []
    ensures base + pile == (base + Below(pile)) + [Topmost(pile)]
  {
  }

  /** Nothing but a legend marks what is under it. */
  lemma {:induction false} PushStands(pile: Pile, name: string, attributes: Attributes)
    requires pile != [] && name != "legend" && !IsVoid(name) && name != "template"
    ensures StandingBelow(Pushed(pile, name, attributes)) <==> Standing(pile)
  {
    var p := Pushed(pile, name, attributes);
    assert |p| == |pile| + 1;
    forall i | 0 <= i < |pile| ensures Stands(p, i) <==> Stands(pile, i) {
      if i == |pile| - 1 {
        assert p[i] == pile[i] && !p[i + 1].first;
      } else {
        assert p[i] == pile[i] && p[i + 1].first == pile[i + 1].first;
      }
    }
  }

  // ---- What the condition asks of a disabled fieldset ----

  /** The lowest thing left on the item is no legend. */
  predicate LowestIsNoLegend(under: Item, pile: Pile) {
    pile != [] && pile[0] == under && (|pile| > 1 ==> pile[1].name != "legend")
  }

  lemma {:induction false} LowestAfter(under: Item, pile: Pile, foreign: W.Stack, node: Node)
    requires Tidy(pile) && Proper(node, foreign) && LowestIsNoLegend(under, pile)
    requires W.Current(foreign).HTML? && !node.ShadowRoot? && (node.Element? ==> node.name != "legend")
    ensures LowestIsNoLegend(under, After(pile, node))
  {
    if |pile| > 1 {
      hide After, Proper;
      AfterGrows(pile, node, foreign);
      var after := After(pile, node);
      assert after[0] == Below(pile)[0] && after[..|pile| - 1] == Below(pile);
      assert after[1].name == pile[1].name;
    } else if node.Element? {
      LowestElement(under, foreign, node.name, node.attributes, node.children);
    }
  }

  lemma {:induction false} LowestElement(under: Item, foreign: W.Stack, name: string, attributes: Attributes,
                                         children: seq<Node>)
    requires Tidy([under]) && AllProper(children, W.Opened(foreign, name, attributes)) && name != "legend"
    requires !IsVoid(name) && name != "template"
    ensures LowestIsNoLegend(under, Popped(AfterAll(Pushed([under], name, attributes), children), name))
  {
    hide AfterAll, Proper;
    var pushed := Pushed([under], name, attributes);
    AllGrow(pushed, children, W.Opened(foreign, name, attributes));
    var inner := AfterAll(pushed, children);
    assert inner[0] == Below(pushed)[0];
    PopStays(inner, name, 1);
  }

  /** Without a legend among its children so far, none is the lowest thing left on it. */
  lemma {:induction false} LowestLeft(under: Item, foreign: W.Stack, nodes: seq<Node>)
    requires AllProper(nodes, foreign) && W.Current(foreign).HTML? && Tidy([under])
    requires forall node | node in nodes :: !node.ShadowRoot? && (node.Element? ==> node.name != "legend")
    ensures LowestIsNoLegend(under, Left(under, nodes))
  {
    if nodes != [] {
      hide After, Proper, LowestIsNoLegend;
      var front, node := nodes[..|nodes| - 1], nodes[|nodes| - 1];
      LowestLeft(under, foreign, front);
      AllGrow([under], front, foreign);
      LowestAfter(under, Left(under, front), foreign, node);
    }
  }

  /** The first legend child of a disabled fieldset is taken for one exactly when nothing was left open before it. */
  lemma {:induction false} LegendNeedsNoneLeft(foreign: W.Stack, nodes: seq<Node>, attributes: Attributes)
    requires AllProper(nodes, foreign) && W.Current(foreign).HTML?
    requires forall node | node in nodes :: !node.ShadowRoot? && (node.Element? ==> node.name != "legend")
    ensures var under := Item("fieldset", true, false, false);
      !StandingBelow(Pushed(Left(under, nodes), "legend", attributes)) <==> Left(under, nodes) == [under]
  {
    var under := Item("fieldset", true, false, false);
    LowestLeft(under, foreign, nodes);
    SaneLeft(under, foreign, nodes);
    var left := Left(under, nodes);
    var pile := Pushed(left, "legend", attributes);
    if |left| > 1 {
      assert !left[1].first;
      assert Stands(pile, 0);
    } else {
      assert left == [under];
      assert !Stands(pile, 0);
    }
  }

  /** Only a legend is marked as a first legend. */
  lemma {:induction false} SaneLeft(under: Item, foreign: W.Stack, nodes: seq<Node>)
    requires AllProper(nodes, foreign) && under == Item("fieldset", true, false, false)
    ensures forall i | 0 < i < |Left(under, nodes)| && Left(under, nodes)[i].first ::
      Left(under, nodes)[i].name == "legend"
  {
    hide Pushed, AfterAll;
    LeftIs([FLOOR], under, nodes, foreign);
    assert [FLOOR] + [under] == [FLOOR, under];
    WalkAll([FLOOR, under], nodes, foreign);
    var all, left := AfterAll([FLOOR, under], nodes), Left(under, nodes);
    forall i | 0 < i < |left| && left[i].first ensures left[i].name == "legend" {
      assert all[i + 1] == left[i];
    }
  }

  // ---- Right documents are judged right ----

  /** What the recursion over positions keeps: the two verdicts of what is above the parent agree. */
  predicate Agree(off: bool, base: Pile, under: Item) {
    Tidy(base + [under]) && (off <==> StandingBelow(base + [under]))
  }

  lemma {:induction false} LeftIs(base: Pile, under: Item, nodes: seq<Node>, foreign: W.Stack)
    requires Tidy(base + [under]) && AllProper(nodes, foreign)
    ensures AfterAll(base + [under], nodes) == base + Left(under, nodes)
    ensures Grown([under], Left(under, nodes)) && Tidy(Left(under, nodes)) && Tidy(base + Left(under, nodes))
  {
    AllLocal(base, [under], nodes, foreign);
    AllGrow([under], nodes, foreign);
    AllGrow(base + [under], nodes, foreign);
  }

  lemma {:induction false} RightIsRight(off: bool, bars: bool, base: Pile, under: Item, foreign: W.Stack,
                                        nodes: seq<Node>, root: seq<Node>, path: Path)
    requires Right(off, bars, under, foreign, nodes) && AllProper(nodes, foreign) && At(nodes, root, path)
    requires Agree(off, base, under)
    ensures Standing(PileAt(base + [under], root, path)) <==> Verdict(off, bars, foreign, root, path)
    decreases |path|
  {
    hide Standing, StandingBelow, Stands, Tidy, AllProper, Grown, Pushed;
    ProperFront(nodes, foreign, |root|);
    LeftIs(base, under, root, foreign);
    var left := Left(under, root);
    StandingSplit(base, under, left);
    RightFront(off, bars, under, foreign, nodes, |root|);
    if path != [] {
      RightNode(off, bars, under, foreign, nodes, |root|);
      ChildrenProper(nodes, foreign, root, path);
      var f := path[0];
      var pile := Pushed(left, f.name, f.attributes);
      PushLocal(base, left, f.name, f.attributes);
      PushedTidy(base + left, f.name, f.attributes);
      PushGrows(left, f.name, f.attributes);
      GrownTwice([under], left, pile);
      StandingSplit(base, under, pile);
      PartsJoin(base, pile);
      if f.name == "template" {
        BelowStands(left);
        TemplateNotPushed(left, f.attributes);
        RightIsRight(false, false, base + Below(pile), Topmost(pile), foreign,
                     nodes[|root|].children, f.before, path[1..]);
      } else {
        var inside := StillBars(bars, f.name, root);
        RightIsRight(off || inside, Bars(foreign, f.name, f.attributes), base + Below(pile), Topmost(pile),
                     W.Opened(foreign, f.name, f.attributes), nodes[|root|].children, f.before, path[1..]);
      }
    }
  }

  lemma {:induction false} BelowStands(pile: Pile)
    ensures StandingBelow(pile) ==> Standing(pile)
  {
  }

  lemma {:induction false} TemplateNotPushed(pile: Pile, attributes: Attributes)
    requires pile != []
    ensures Pushed(pile, "template", attributes) == pile
  {
  }

  // ---- Other documents have a position that is judged wrong ----

  lemma {:induction false} AtLonger(front: seq<Node>, nodes: seq<Node>, root: seq<Node>, path: Path)
    requires |front| <= |nodes| && nodes[..|front|] == front && At(front, root, path)
    ensures At(nodes, root, path)
  {
    assert nodes[..|root|] == front[..|root|];
    assert path != [] ==> nodes[|root|] == front[|root|];
  }

  /** What is put below a child's siblings, for both verdicts. */
  lemma {:induction false} IntoChild(off: bool, base: Pile, under: Item, foreign: W.Stack, front: seq<Node>,
                                     name: string, attributes: Attributes)
    requires AllProper(front, foreign) && Agree(off, base, under)
    ensures var pile := Pushed(Left(under, front), name, attributes);
      && Pushed(AfterAll(base + [under], front), name, attributes) == (base + Below(pile)) + [Topmost(pile)]
      && Tidy((base + Below(pile)) + [Topmost(pile)])
      && (StandingBelow((base + Below(pile)) + [Topmost(pile)]) <==> off || StandingBelow(pile))
      && (Standing((base + Below(pile)) + [Topmost(pile)]) <==> off || Standing(pile))
  {
    hide Standing, StandingBelow, Tidy, AllProper, Grown, Pushed;
    var left := Left(under, front);
    var pile := Pushed(left, name, attributes);
    LeftIs(base, under, front, foreign);
    PushLocal(base, left, name, attributes);
    PushedTidy(base + left, name, attributes);
    PushGrows(left, name, attributes);
    GrownTwice([under], left, pile);
    StandingSplit(base, under, pile);
    PartsJoin(base, pile);
  }

  lemma {:induction false} BarsInHTML(foreign: W.Stack, name: string, attributes: Attributes)
    ensures Bars(foreign, name, attributes) ==> W.Current(W.Opened(foreign, name, attributes)).HTML?
  {
  }

  /** The first position inside the last node. */
  lemma {:induction false} AtChild(off: bool, bars: bool, pile: Pile, foreign: W.Stack, nodes: seq<Node>, f: Frame)
    requires pile != [] && nodes != [] && Opens(nodes[|nodes| - 1], f) && f.before == [] && f.name != "fieldset"
    ensures var front := nodes[..|nodes| - 1];
      && At(nodes, front, [f])
      && PileAt(pile, front, [f]) == Pushed(AfterAll(pile, front), f.name, f.attributes)
      && (Verdict(off, bars, foreign, front, [f]) <==> f.name != "template" && (off || StillBars(bars, f.name, front)))
  {
    hide Pushed, StillBars;
    assert [f][1..] == [];
  }

  /** A position in the children of the last node. */
  lemma {:induction false} AtDeeper(off: bool, bars: bool, pile: Pile, foreign: W.Stack, nodes: seq<Node>, f: Frame,
                                    deeper: Path)
    requires pile != [] && nodes != [] && Opens(nodes[|nodes| - 1], f)
    requires At(nodes[|nodes| - 1].children, f.before, deeper)
    ensures var front, path := nodes[..|nodes| - 1], [f] + deeper;
      && At(nodes, front, path)
      && PileAt(pile, front, path) == PileAt(Pushed(AfterAll(pile, front), f.name, f.attributes), f.before, deeper)
      && (Verdict(off, bars, foreign, front, path) <==>
            if f.name == "template" then Verdict(false, false, foreign, f.before, deeper)
            else Verdict(off || StillBars(bars, f.name, front), Bars(foreign, f.name, f.attributes),
                         W.Opened(foreign, f.name, f.attributes), f.before, deeper))
  {
    hide Pushed, StillBars, Bars;
    assert ([f] + deeper)[1..] == deeper;
  }

  /** The item put on for a legend disables nothing itself. */
  lemma {:induction false} LegendStands(pile: Pile, attributes: Attributes)
    requires pile != []
    ensures Standing(Pushed(pile, "legend", attributes)) <==> StandingBelow(Pushed(pile, "legend", attributes))
  {
    var p := Pushed(pile, "legend", attributes);
    assert !Stands(p, |p| - 1);
  }

  /** Only a legend can make the verdicts on entering a child differ. */
  lemma {:induction false} EntersRight(bars: bool, left: Pile, foreign: W.Stack, front: seq<Node>, node: Node)
    requires left != [] && (bars <==> Standing(left)) && (bars ==> W.Current(foreign).HTML?)
    requires node.Element? && Proper(node, foreign) && node.name != "legend"
    ensures StillBars(bars, node.name, front) <==> StandingBelow(Pushed(left, node.name, node.attributes))
  {
    hide Standing, StandingBelow;
    if IsVoid(node.name) {
      BelowStands(left);
    } else {
      PushStands(left, node.name, node.attributes);
    }
  }

  lemma {:induction false} WrongPosition(off: bool, bars: bool, base: Pile, under: Item, foreign: W.Stack,
                                         nodes: seq<Node>)
    returns (root: seq<Node>, path: Path)
    requires !Right(off, bars, under, foreign, nodes) && AllProper(nodes, foreign)
    requires Agree(off, base, under) && (bars ==> W.Current(foreign).HTML?)
    ensures At(nodes, root, path)
    ensures !(Standing(PileAt(base + [under], root, path)) <==> Verdict(off, bars, foreign, root, path))
    decreases nodes, 2
  {
    hide Standing, StandingBelow, Stands, Tidy, Grown, Pushed, StillBars, Bars;
    LeftIs(base, under, nodes, foreign);
    StandingSplit(base, under, Left(under, nodes));
    root, path := nodes, [];
    if off || (bars <==> Standing(Left(under, nodes))) {
      var front, node := nodes[..|nodes| - 1], nodes[|nodes| - 1];
      if !Right(off, bars, under, foreign, front) {
        root, path := WrongPosition(off, bars, base, under, foreign, front);
        AtLonger(front, nodes, root, path);
      } else {
        root, path := WrongInside(off, bars, base, under, foreign, nodes);
      }
    }
  }

  lemma {:induction false} WrongInside(off: bool, bars: bool, base: Pile, under: Item, foreign: W.Stack,
                                       nodes: seq<Node>)
    returns (root: seq<Node>, path: Path)
    requires nodes != [] && AllProper(nodes, foreign) && Agree(off, base, under) && (bars ==> W.Current(foreign).HTML?)
    requires var front := nodes[..|nodes| - 1];
      Right(off, bars, under, foreign, front) && !NodeRight(off, bars, under, foreign, front, nodes[|nodes| - 1])
    ensures At(nodes, root, path)
    ensures !(Standing(PileAt(base + [under], root, path)) <==> Verdict(off, bars, foreign, root, path))
    decreases nodes, 1
  {
    hide Standing, StandingBelow, Stands, Tidy, Grown, Pushed, StillBars, Bars, Verdict, At, PileAt, Fits;
    var front, node := nodes[..|nodes| - 1], nodes[|nodes| - 1];
    assert Proper(node, foreign) && AllProper(front, foreign);
    var name := if node.ShadowRoot? then "template" else node.name;
    var left, f := Left(under, front), Frame(name, node.attributes, []);
    var pile, inside := Pushed(left, name, f.attributes), StillBars(bars, name, front);
    IntoChild(off, base, under, foreign, front, name, f.attributes);
    if node.ShadowRoot? { TemplateNotPushed(left, f.attributes); }
    if node.ShadowRoot? && (off || bars) {
      root, path := front, [f];
      AtChild(off, bars, base + [under], foreign, nodes, f);
    } else if node.Element? && !off && (inside <==> !StandingBelow(pile)) {
      if name != "legend" { EntersRight(bars, left, foreign, front, node); }
      LegendStands(left, f.attributes);
      root, path := front, [f];
      AtChild(off, bars, base + [under], foreign, nodes, f);
    } else {
      root, path := WrongBelow(off, bars, base, under, foreign, nodes);
    }
  }

  lemma {:induction false} WrongBelow(off: bool, bars: bool, base: Pile, under: Item, foreign: W.Stack,
                                      nodes: seq<Node>)
    returns (root: seq<Node>, path: Path)
    requires nodes != [] && AllProper(nodes, foreign) && Agree(off, base, under) && (bars ==> W.Current(foreign).HTML?)
    requires var front, node := nodes[..|nodes| - 1], nodes[|nodes| - 1];
      && Right(off, bars, under, foreign, front) && !NodeRight(off, bars, under, foreign, front, node)
      && (node.ShadowRoot? ==> !off && !bars)
      && (node.Element? ==>
            off || (StillBars(bars, node.name, front) <==>
                    StandingBelow(Pushed(Left(under, front), node.name, node.attributes))))
    ensures At(nodes, root, path)
    ensures !(Standing(PileAt(base + [under], root, path)) <==> Verdict(off, bars, foreign, root, path))
    decreases nodes, 0
  {
    hide Standing, StandingBelow, Stands, Tidy, Grown, Pushed, StillBars, Bars, Verdict, At, PileAt, Fits;
    var front, node := nodes[..|nodes| - 1], nodes[|nodes| - 1];
    assert Proper(node, foreign) && AllProper(front, foreign);
    var left, attributes := Left(under, front), node.attributes;
    if node.ShadowRoot? {
      TemplateNotPushed(left, attributes);
      BelowStands(left);
      IntoChild(off, base, under, foreign, front, "template", attributes);
      var before, deeper := WrongPosition(false, false, base + Below(left), Topmost(left), foreign, node.children);
      root, path := front, [Frame("template", attributes, before)] + deeper;
      AtDeeper(off, bars, base + [under], foreign, nodes, path[0], deeper);
    } else {
      var name := node.name;
      var pile, inside := Pushed(left, name, attributes), StillBars(bars, name, front);
      IntoChild(off, base, under, foreign, front, name, attributes);
      BarsInHTML(foreign, name, attributes);
      var before, deeper :=
        WrongPosition(off || inside, Bars(foreign, name, attributes), base + Below(pile), Topmost(pile),
                                          W.Opened(foreign, name, attributes), node.children);
      root, path := front, [Frame(name, attributes, before)] + deeper;
      AtDeeper(off, bars, base + [under], foreign, nodes, path[0], deeper);
    }
  }

  /** The fieldset test agrees with the tree at every position exactly on the documents that are right. */
  lemma {:induction false} VerdictRightIff(document: seq<Node>)
    requires AllProper(document, [])
    ensures (forall root, path | At(document, root, path) ::
              InDisabledFieldset(Walk(BLANK.nesting, Prefix(root, path))) <==> TreeDisabled(path))
       <==> RightDocument(document)
  {
    hide Standing, Sane, TreeDisabled, InDisabledFieldset, Verdict, Right;
    Floor();
    forall root, path | At(document, root, path)
      ensures InDisabledFieldset(Walk(BLANK.nesting, Prefix(root, path))) <==>
        Standing(PileAt([] + [FLOOR], root, path))
      ensures TreeDisabled(path) <==> Verdict(false, false, [], root, path)
    {
      assert [] + [FLOOR] == [FLOOR];
      StacksArePile([FLOOR], [], document, root, path);
      TestIsStanding(PileAt([FLOOR], root, path));
      VerdictIsTreeDisabled(root, path);
    }
    if RightDocument(document) {
      forall root, path | At(document, root, path)
        ensures InDisabledFieldset(Walk(BLANK.nesting, Prefix(root, path))) <==> TreeDisabled(path)
      {
        RightIsRight(false, false, [], FLOOR, [], document, root, path);
      }
    } else {
      var root, path := WrongPosition(false, false, [], FLOOR, [], document);
    }
  }

  lemma {:induction false} Floor()
    ensures Sane([FLOOR]) && Stacks([FLOOR]) == BLANK.nesting && Agree(false, [], FLOOR)
  {
    assert Names([FLOOR]) == [] && [] + [FLOOR] == [FLOOR];
  }
}
