/** What it takes for a document to be right, read off its parts: what each part leaves open is computed from the part
    alone, and three readings say when that makes a verdict wrong. */
module LoginReadings {
  import opened Markup
  import opened LoginPage
  import opened LoginTree
  import opened LoginPile
  import opened LoginDisabled
  import W = HTMLWalker

  // ---- What a part leaves open ----

  /** The names of the elements that a node leaves open: a self-closing tag leaves its own; an end tag takes back the
      innermost element of its name, with everything above. */
  function Residue(node: Node): seq<string>
    decreases node
  {
    match node
    case Closed(name, _) => if name == "template" then [] else [name]
    case Element(name, _, children) =>
      if IsVoid(name) then ResidueAll(children)
      else
        var open := [name] + ResidueAll(children);
        open[..if LastIndex(open, name) < 0 then 0 else LastIndex(open, name)]
    case ShadowRoot(_, children) => ResidueAll(children)
    case _ => []
  }

  function ResidueAll(nodes: seq<Node>): seq<string>
    decreases nodes
  {
    if nodes == [] then [] else ResidueAll(nodes[..|nodes| - 1]) + Residue(nodes[|nodes| - 1])
  }

  lemma {:induction false} LastIndexSplit(a: seq<string>, b: seq<string>, name: string)
    requires name in b
    ensures LastIndex(a + b, name) == |a| + LastIndex(b, name) && LastIndex(b, name) >= 0
  {
    var i :| 0 <= i < |b| && b[i] == name;
    var low, high := LastIndex(b, name), LastIndex(a + b, name);
    assert low >= i && b[low] == name;
    assert (a + b)[|a| + low] == name;
    assert high >= |a| ==> (a + b)[high] == b[high - |a|];
  }

  lemma {:induction false} PushedNames(pile: Pile, name: string, attributes: Attributes)
    requires pile != []
    ensures Names(Pushed(pile, name, attributes))
         == Names(pile) + if IsVoid(name) || name == "template" then [] else [name]
  {
  }

  lemma {:induction false} PoppedNames(pile: Pile, name: string)
    requires pile != []
    ensures var index := LastIndex(Names(pile), name);
      Names(Popped(pile, name)) == if index < 0 then Names(pile) else Names(pile)[..index]
  {
  }

  /** The pile grows by the residue, whatever it is. */
  lemma {:induction false} NodeLeaves(pile: Pile, node: Node, foreign: W.Stack)
    requires pile != [] && Tidy(pile) && Proper(node, foreign)
    ensures Names(After(pile, node)) == Names(pile) + Residue(node)
    decreases node, 0
  {
    hide Names, Pushed, Popped, Tidy;
    match node
    case Element(name, attributes, children) =>
      var pushed, inside := Pushed(pile, name, attributes), W.Opened(foreign, name, attributes);
      var inner := AfterAll(pushed, children);
      PushedNames(pile, name, attributes);
      PushedTidy(pile, name, attributes);
      NodesLeave(pushed, children, inside);
      if IsVoid(name) {
        AllGrow(pushed, children, inside);
        VoidPops(inner, name);
        assert Names(pile) + [] == Names(pile);
      } else {
        var open := [name] + ResidueAll(children);
        assert Names(inner) == Names(pile) + open;
        assert open[0] == name;
        PoppedNames(inner, name);
        LastIndexSplit(Names(pile), open, name);
      }
    case ShadowRoot(_, children) => NodesLeave(pile, children, foreign);
    case Closed(name, attributes) => PushedNames(pile, name, attributes);
    case _ => assert Names(pile) + [] == Names(pile);
  }

  lemma {:induction false} VoidPops(pile: Pile, name: string)
    requires pile != [] && Tidy(pile) && IsVoid(name)
    ensures Popped(pile, name) == pile
  {
    NothingPopped(pile, name);
  }

  lemma {:induction false} NodesLeave(pile: Pile, nodes: seq<Node>, foreign: W.Stack)
    requires pile != [] && Tidy(pile) && AllProper(nodes, foreign)
    ensures Names(AfterAll(pile, nodes)) == Names(pile) + ResidueAll(nodes)
    decreases nodes, 1
  {
    hide Names, After, Residue, Tidy;
    if nodes == [] {
      assert Names(pile) + [] == Names(pile);
    } else {
      var front, last := nodes[..|nodes| - 1], nodes[|nodes| - 1];
      NodesLeave(pile, front, foreign);
      AllGrow(pile, front, foreign);
      NodeLeaves(AfterAll(pile, front), last, foreign);
      assert Names(pile) + ResidueAll(front) + Residue(last) == Names(pile) + (ResidueAll(front) + Residue(last));
    }
  }

  /** What is left above an item is the residue. */
  lemma {:induction false} ResidueIsLeft(under: Item, nodes: seq<Node>, foreign: W.Stack)
    requires Tidy([under]) && AllProper(nodes, foreign)
    ensures Names(Left(under, nodes)) == ResidueAll(nodes)
  {
    NodesLeave([under], nodes, foreign);
    assert Names([under]) + ResidueAll(nodes) == ResidueAll(nodes);
  }

  // ---- The condition without its recursion over siblings ----

  /** A document part is right exactly when every gap between its nodes is, and every node. */
  lemma {:induction false} RightReads(off: bool, bars: bool, under: Item, foreign: W.Stack, nodes: seq<Node>)
    ensures Right(off, bars, under, foreign, nodes) <==>
      && (forall k | 0 <= k <= |nodes| :: off || (bars <==> Standing(Left(under, nodes[..k]))))
      && forall k | 0 <= k < |nodes| :: NodeRight(off, bars, under, foreign, nodes[..k], nodes[k])
    decreases |nodes|
  {
    hide Standing, Left, NodeRight;
    assert nodes[..|nodes|] == nodes;
    if nodes != [] {
      var front, n := nodes[..|nodes| - 1], |nodes| - 1;
      RightReads(off, bars, under, foreign, front);
      assert forall k | 0 <= k <= n :: front[..k] == nodes[..k];
      assert forall k | 0 <= k < n :: front[k] == nodes[k];
      assert forall k | 0 <= k <= |nodes| :: k <= n || nodes[..k] == nodes;
    }
  }

  // ---- Three readings ----

  /** The first legend child of a disabled fieldset is taken for one exactly when nothing before it is left open. */
  lemma {:induction false} LegendNeedsNoResidue(foreign: W.Stack, nodes: seq<Node>, attributes: Attributes)
    requires AllProper(nodes, foreign) && W.Current(foreign).HTML?
    requires forall node | node in nodes :: !node.ShadowRoot? && (node.Element? ==> node.name != "legend")
    ensures var under := Item("fieldset", true, false, false);
      !StandingBelow(Pushed(Left(under, nodes), "legend", attributes)) <==> ResidueAll(nodes) == []
  {
    hide StandingBelow, Pushed, Left;
    var under := Item("fieldset", true, false, false);
    LegendNeedsNoneLeft(foreign, nodes, attributes);
    ResidueIsLeft(under, nodes, foreign);
    LowestLeft(under, foreign, nodes);
    NoneLeft(under, Left(under, nodes));
  }

  lemma {:induction false} NoneLeft(under: Item, pile: Pile)
    requires LowestIsNoLegend(under, pile)
    ensures Names(pile) == [] <==> pile == [under]
  {
    assert |Names(pile)| == |pile| - 1;
  }

  /** After its first legend, with nothing left open before it, the fieldset disables again exactly when the children
      of the legend leave no `legend` open: otherwise that takes the end tag, and the first legend stays open. */
  lemma {:induction false} LegendNeedsItsEnd(foreign: W.Stack, nodes: seq<Node>, attributes: Attributes,
                                             children: seq<Node>)
    requires AllProper(nodes, foreign) && W.Current(foreign).HTML? && ResidueAll(nodes) == []
    requires forall node | node in nodes :: !node.ShadowRoot? && (node.Element? ==> node.name != "legend")
    requires AllProper(children, W.Opened(foreign, "legend", attributes))
    ensures var under := Item("fieldset", true, false, false);
      Stands(Left(under, nodes + [Element("legend", attributes, children)]), 0) <==> "legend" !in ResidueAll(children)
  {
    hide Stands, Left, Pushed, Popped, Names, AfterAll;
    var under := Item("fieldset", true, false, false);
    var pushed, inside := Pushed([under], "legend", attributes), W.Opened(foreign, "legend", attributes);
    LowestLeft(under, foreign, nodes);
    ResidueIsLeft(under, nodes, foreign);
    NoneLeft(under, Left(under, nodes));
    LeftMore(under, nodes, Element("legend", attributes, children));
    LegendPushed(attributes);
    AllGrow(pushed, children, inside);
    NodesLeave(pushed, children, inside);
    LegendItems(pushed, AfterAll(pushed, children));
    LegendCut(AfterAll(pushed, children), ResidueAll(children));
  }

  lemma {:induction false} LegendItems(pushed: Pile, inner: Pile)
    requires pushed == [Item("fieldset", true, true, false), Item("legend", false, false, true)] && Grown(pushed, inner)
    ensures |inner| >= 2 && inner[0].disabled && inner[1].first && Names(pushed) == ["legend"]
  {
    assert Below(pushed) == [pushed[0]] && inner[0] == inner[..1][0];
  }

  /** The end tag takes the last of the open legends. */
  lemma {:induction false} LegendCut(pile: Pile, residue: seq<string>)
    requires |pile| >= 2 && pile[0].disabled && pile[1].first && Names(pile) == ["legend"] + residue
    ensures Stands(Popped(pile, "legend"), 0) <==> "legend" !in residue
  {
    var open := ["legend"] + residue;
    assert open[0] == "legend";
    var index := LastIndex(open, "legend");
    assert Popped(pile, "legend") == pile[..index + 1];
    if "legend" in residue {
      LastIndexSplit(["legend"], residue, "legend");
    } else {
      assert forall i | 0 < i < |open| :: open[i] == residue[i - 1];
    }
  }

  lemma {:induction false} LeftMore(under: Item, front: seq<Node>, node: Node)
    ensures Left(under, front + [node]) == After(Left(under, front), node)
  {
    hide After;
    assert (front + [node])[..|front|] == front;
  }

  lemma {:induction false} LegendPushed(attributes: Attributes)
    ensures Pushed([Item("fieldset", true, false, false)], "legend", attributes)
         == [Item("fieldset", true, true, false), Item("legend", false, false, true)]
  {
  }

  /** Where nothing disables, what is left open is harmless as long as it holds no `fieldset`. */
  lemma {:induction false} NoFieldsetLeft(under: Item, foreign: W.Stack, nodes: seq<Node>)
    requires AllProper(nodes, foreign) && Sane([FLOOR, under]) && !under.disabled && "fieldset" !in ResidueAll(nodes)
    ensures !Standing(Left(under, nodes))
  {
    hide Pushed, AfterAll;
    var left := Left(under, nodes);
    ResidueIsLeft(under, nodes, foreign);
    assert [FLOOR] + [under] == [FLOOR, under];
    LeftIs([FLOOR], under, nodes, foreign);
    WalkAll([FLOOR, under], nodes, foreign);
    var all := AfterAll([FLOOR, under], nodes);
    forall i | 0 <= i < |left| ensures !Stands(left, i) {
      assert all[i + 1] == left[i];
      assert i > 0 ==> Names(left)[i - 1] == left[i].name;
    }
  }

  /** And a self-closing disabled `fieldset` makes the part wrong. */
  lemma {:induction false} FieldsetLeftIsWrong(under: Item, foreign: W.Stack, nodes: seq<Node>, k: nat)
    requires k < |nodes| && nodes[k].Closed? && nodes[k].name == "fieldset" && "disabled" in nodes[k].attributes
    ensures !Right(false, false, under, foreign, nodes)
  {
    RightReads(false, false, under, foreign, nodes);
    var front, left := nodes[..k], Left(under, nodes[..k + 1]);
    assert nodes[..k + 1] == front + [nodes[k]];
    LeftMore(under, front, nodes[k]);
    assert Stands(left, |left| - 1);
  }
}
