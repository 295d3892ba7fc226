/** The element and fieldset stacks of the validator as one pile of open elements, and what each part of a document
    leaves on it: an element with an end tag leaves nothing unless its own name is among what its children left. */
module LoginPile {
  import opened Markup
  import opened LoginPage
  import opened LoginTree
  import W = HTMLWalker

  /** An open element; `seen` says that a legend has been opened right above it, `first` that this is that legend. */
  datatype Item = Item(name: string, disabled: bool, seen: bool, first: bool)

  type Pile = seq<Item>

  /** Below the first open element. */
  const FLOOR := Item("", false, false, false)

  function Names(pile: Pile): (names: seq<string>)
    requires pile != []
    ensures |names| == |pile| - 1 && forall i | 0 <= i < |names| :: names[i] == pile[i + 1].name
  {
    seq(|pile| - 1, i requires 0 <= i < |pile| - 1 => pile[i + 1].name)
  }

  function Topmost(pile: Pile): Item
    requires pile != []
  {
    pile[|pile| - 1]
  }

  function Below(pile: Pile): Pile
    requires pile != []
  {
    pile[..|pile| - 1]
  }

  function Added(top: Item, name: string, attributes: Attributes): Item {
    Item(name, name == "fieldset" && "disabled" in attributes, false,
         name == "legend" && top.name == "fieldset" && !top.seen)
  }

  function Under(top: Item, name: string): Item {
    top.(seen := top.seen || (name == "legend" && top.name == "fieldset"))
  }

  /** The pile after a start tag; template and void tags are not piled. */
  function Pushed(pile: Pile, name: string, attributes: Attributes): (p: Pile)
    requires pile != []
    ensures |p| >= |pile|
  {
    if IsVoid(name) || name == "template" then pile
    else Below(pile) + [Under(Topmost(pile), name), Added(Topmost(pile), name, attributes)]
  }

  /** The pile after an end tag. */
  function Popped(pile: Pile, name: string): (p: Pile)
    requires pile != []
    ensures p != []
  {
    var index := LastIndex(Names(pile), name);
    if index < 0 then pile else pile[..index + 1]
  }

  function After(pile: Pile, node: Node): (p: Pile)
    requires pile != []
    ensures p != []
    decreases node
  {
    match node
    case Leaf(_) => pile
    case Void(_, _, _) => pile
    case Closed(name, attributes) => Pushed(pile, name, attributes)
    case Element(name, attributes, children) => Popped(AfterAll(Pushed(pile, name, attributes), children), name)
    case ShadowRoot(_, children) => AfterAll(pile, children)
  }

  function AfterAll(pile: Pile, nodes: seq<Node>): (p: Pile)
    requires pile != []
    ensures p != []
    decreases nodes
  {
    if nodes == [] then pile else After(AfterAll(pile, nodes[..|nodes| - 1]), nodes[|nodes| - 1])
  }

  /** The pile at a position. */
  function PileAt(pile: Pile, root: seq<Node>, path: Path): (p: Pile)
    requires pile != []
    ensures p != []
    decreases |path|
  {
    var here := AfterAll(pile, root);
    if path == [] then here
    else PileAt(Pushed(here, path[0].name, path[0].attributes), path[0].before, path[1..])
  }

  // ---- The validator's stacks stand for the pile ----

  function Entry(pile: Pile, i: nat): Fieldset
    requires 0 < i < |pile|
  {
    Fieldset(i - 1, pile[i].disabled, pile[i].seen, i + 1 < |pile| && pile[i + 1].first, if pile[i].seen then i else -1)
  }

  function Entries(pile: Pile, n: nat): seq<Fieldset>
    requires n <= |pile|
  {
    if n <= 1 then [] else Entries(pile, n - 1) + if pile[n - 1].name == "fieldset" then [Entry(pile, n - 1)] else []
  }

  function Stacks(pile: Pile): Nesting
    requires pile != []
  {
    Nesting(Names(pile), Entries(pile, |pile|))
  }

  /** First legends stand on the fieldset that has seen them; voids and templates are not piled. */
  predicate Sane(pile: Pile) {
    && pile != [] && !pile[0].first && !pile[0].disabled && pile[0].name != "fieldset"
    && (forall i | 0 < i < |pile| && pile[i].first ::
          pile[i].name == "legend" && pile[i - 1].name == "fieldset" && pile[i - 1].seen)
    && (forall i | 0 < i < |pile| && pile[i].disabled :: pile[i].name == "fieldset")
    && Tidy(pile)
  }

  predicate Tidy(pile: Pile) {
    forall i | 0 < i < |pile| :: !IsVoid(pile[i].name) && pile[i].name != "template"
  }

  /** The nesting part of a step; template tags leave it alone. */
  function Turn(n: Nesting, token: Token): Nesting {
    match token
    case Start(name, attributes) => if name == "template" then n else Push(OpenFieldsets(n, name, attributes), name)
    case SelfClosing(name, attributes) =>
      if name == "template" then n else Push(OpenFieldsets(n, name, attributes), name)
    case End(name) => if name == "template" then n else CloseNesting(n, name)
    case _ => n
  }

  function Walk(n: Nesting, tokens: seq<Token>): Nesting {
    if tokens == [] then n else Turn(Walk(n, tokens[..|tokens| - 1]), tokens[|tokens| - 1])
  }

  lemma {:induction false} WalkOne(n: Nesting, token: Token)
    ensures Walk(n, [token]) == Turn(n, token)
  {
    assert [token][..0] == [];
  }

  lemma {:induction false} WalkSplit(n: Nesting, a: seq<Token>, b: seq<Token>)
    ensures Walk(n, a + b) == Walk(Walk(n, a), b)
    decreases |b|
  {
    if b == [] {
      assert a + b == a;
    } else {
      assert (a + b)[..|a + b| - 1] == a + b[..|b| - 1];
      WalkSplit(n, a, b[..|b| - 1]);
    }
  }

  lemma {:induction false} EntriesStep(pile: Pile, n: nat)
    requires 0 < n < |pile|
    ensures Entries(pile, n + 1) == Entries(pile, n) + if pile[n].name == "fieldset" then [Entry(pile, n)] else []
  {
  }

  lemma {:induction false} EntriesAre(pile: Pile, n: nat)
    requires n <= |pile|
    ensures forall e | e in Entries(pile, n) ::
      0 <= e.depth && e.depth + 1 < n && pile[e.depth + 1].name == "fieldset" && e == Entry(pile, e.depth + 1)
    ensures forall i | 0 < i < n && pile[i].name == "fieldset" :: Entry(pile, i) in Entries(pile, n)
  {
    if n > 1 {
      EntriesAre(pile, n - 1);
    }
  }

  /** An entry depends on its own item and on the mark of the next one. */
  lemma {:induction false} EntriesSame(pile: Pile, other: Pile, n: nat)
    requires n < |pile| && n < |other|
    requires forall i | 0 <= i < n :: pile[i] == other[i]
    requires pile[n].first == other[n].first
    ensures Entries(pile, n) == Entries(other, n)
  {
    if n > 1 {
      EntriesSame(pile, other, n - 1);
    }
  }

  // ---- Start tags ----

  lemma {:induction false} PushStacks(pile: Pile, name: string, attributes: Attributes)
    requires pile != [] && Sane(pile)
    ensures Turn(Stacks(pile), Start(name, attributes)) == Stacks(Pushed(pile, name, attributes))
    ensures Sane(Pushed(pile, name, attributes))
  {
    hide Sane, Entries, OpenFieldsets;
    PushSane(pile, name, attributes);
    if IsVoid(name) || name == "template" {
      VoidPushes(Stacks(pile), name, attributes);
    } else {
      PushEntries(pile, name, attributes);
      assert Names(Pushed(pile, name, attributes)) == Names(pile) + [name];
    }
  }

  lemma {:induction false} VoidPushes(n: Nesting, name: string, attributes: Attributes)
    ensures IsVoid(name) || name == "template" ==> Turn(n, Start(name, attributes)) == n
  {
    assert !IsVoid("legend") && !IsVoid("fieldset");
  }

  lemma {:induction false} PushEntries(pile: Pile, name: string, attributes: Attributes)
    requires Sane(pile) && !IsVoid(name) && name != "template"
    ensures OpenFieldsets(Stacks(pile), name, attributes).fieldsets
      == Entries(Pushed(pile, name, attributes), |pile| + 1)
    ensures OpenFieldsets(Stacks(pile), name, attributes).elements == Names(pile)
  {
    hide Entries, BeginLegend;
    var n, p := |pile|, Pushed(pile, name, attributes);
    UnderEntries(pile, name, attributes);
    EntriesStep(p, n);
    assert name == "fieldset" ==> Entry(p, n) == Fieldset(n - 1, "disabled" in attributes, false, false, -1);
    assert Entries(p, n) + [] == Entries(p, n);
  }

  lemma {:induction false} PushedTidy(pile: Pile, name: string, attributes: Attributes)
    requires pile != [] && Tidy(pile)
    ensures Tidy(Pushed(pile, name, attributes))
  {
  }

  lemma {:induction false} PushSane(pile: Pile, name: string, attributes: Attributes)
    requires Sane(pile)
    ensures Sane(Pushed(pile, name, attributes))
  {
    hide Tidy;
    PushedTidy(pile, name, attributes);
  }

  /** The entries below the new item: only the one right below can change, by its first legend. */
  lemma {:induction false} UnderEntries(pile: Pile, name: string, attributes: Attributes)
    requires Sane(pile) && !IsVoid(name) && name != "template"
    ensures var n, p := |pile|, Pushed(pile, name, attributes);
      Entries(p, n) ==
        if name == "legend" && n > 1 && pile[n - 1].name == "fieldset" then BeginLegend(Entries(pile, n), n - 2, n - 1)
        else Entries(pile, n)
  {
    hide Entries, BeginLegend;
    var n, p := |pile|, Pushed(pile, name, attributes);
    if n == 1 {
      NoEntries(pile, p);
    } else {
      EntriesSame(pile, p, n - 1);
      LastEntries(pile, n - 1);
      EntriesStep(p, n - 1);
      if pile[n - 1].name == "fieldset" {
        TopEntry(Entries(pile, n - 1), Entry(pile, n - 1), n - 2, n - 1);
      }
    }
  }

  lemma {:induction false} TopEntry(below: seq<Fieldset>, e: Fieldset, depth: nat, legendDepth: nat)
    requires e.depth == depth
    ensures BeginLegend(below + [e], depth, legendDepth) == below + [
      if e.firstLegendSeen then e
      else e.(firstLegendSeen := true, firstLegendOpen := true, legendDepth := legendDepth)]
  {
    assert FieldsetAt(below + [e], depth) == |below|;
  }

  // ---- End tags ----

  lemma {:induction false} PopStacks(pile: Pile, name: string)
    requires pile != [] && Sane(pile)
    ensures CloseNesting(Stacks(pile), name) == Stacks(Popped(pile, name)) && Sane(Popped(pile, name))
  {
    hide Entries, EndLegend, PopFieldsets, Sane;
    var index := LastIndex(Names(pile), name);
    if index >= 0 {
      assert Names(pile)[..index] == Names(pile[..index + 1]);
      PopEntries(pile, index, name);
      CutSane(pile, index + 1);
    }
  }

  lemma {:induction false} CutSane(pile: Pile, n: nat)
    requires Sane(pile) && 0 < n <= |pile|
    ensures Sane(pile[..n])
  {
  }

  lemma {:induction false} PopEntries(pile: Pile, index: nat, name: string)
    requires Sane(pile) && index + 1 < |pile| && pile[index + 1].name == name
    ensures var all := Entries(pile, |pile|);
      PopFieldsets(if name == "legend" then EndLegend(all, index) else all, index)
         == Entries(pile[..index + 1], index + 1)
  {
    hide Entries, EndLegend, PopFieldsets, Above;
    var kept, above := Entries(pile[..index + 1], index + 1), Above(pile, index + 1);
    CutEntries(pile, index + 1);
    Unmarked(pile, index);
    if name == "legend" {
      LegendCut(pile, index);
    } else {
      assert !pile[index + 1].first;
    }
    EntriesAre(pile[..index + 1], index + 1);
    AboveAre(pile, index + 1);
    PopAbove(kept, above, index);
  }

  /** The entries from the n-th item on. */
  function Above(pile: Pile, n: nat): seq<Fieldset>
    requires 0 < n <= |pile|
    decreases |pile| - n
  {
    if n == |pile| then []
    else (if pile[n].name == "fieldset" then [Entry(pile, n)] else []) + Above(pile, n + 1)
  }

  lemma {:induction false} AboveAre(pile: Pile, n: nat)
    requires 0 < n <= |pile|
    ensures forall e | e in Above(pile, n) :: e.depth >= n - 1 && (e.legendDepth == -1 || e.legendDepth >= n)
    decreases |pile| - n
  {
    if n < |pile| {
      AboveAre(pile, n + 1);
    }
  }

  lemma {:induction false} CutEntries(pile: Pile, n: nat)
    requires 0 < n <= |pile|
    ensures Entries(pile, |pile|) == Entries(pile, n) + Above(pile, n)
    decreases |pile| - n
  {
    if n < |pile| {
      CutEntries(pile, n + 1);
      EntriesStep(pile, n);
    }
  }

  /** Ending a legend touches no entry above it. */
  lemma {:induction false} LegendCut(pile: Pile, index: nat)
    requires index + 1 < |pile|
    ensures EndLegend(Entries(pile, |pile|), index)
      == EndLegend(Entries(pile, index + 1), index) + Above(pile, index + 1)
  {
    CutEntries(pile, index + 1);
    AboveAre(pile, index + 1);
    LegendBelow(Entries(pile, index + 1), Above(pile, index + 1), index);
  }

  lemma {:induction false} LegendBelow(below: seq<Fieldset>, above: seq<Fieldset>, depth: nat)
    requires forall e | e in above :: !OpenLegendAt(e, depth)
    ensures EndLegend(below + above, depth) == EndLegend(below, depth) + above
  {
    var owner, all := LegendOwner(below, depth), below + above;
    forall k | owner < k < |all| ensures !OpenLegendAt(all[k], depth) {
      if k >= |below| { assert all[k] in above; }
    }
    assert owner >= 0 ==> OpenLegendAt(all[owner], depth);
    assert LegendOwner(all, depth) == owner;
  }

  lemma {:induction false} PopAbove(below: seq<Fieldset>, above: seq<Fieldset>, depth: nat)
    requires forall e | e in above :: e.depth >= depth
    requires forall e | e in below :: e.depth < depth
    ensures PopFieldsets(below + above, depth) == below
    decreases |above|
  {
    if above == [] {
      assert below + above == below;
      assert below != [] ==> below[|below| - 1] in below;
    } else {
      var all := below + above;
      assert all[|all| - 1] == above[|above| - 1] && above[|above| - 1] in above;
      assert all[..|all| - 1] == below + above[..|above| - 1];
      PopAbove(below, above[..|above| - 1], depth);
    }
  }

  /** Cut off above an item, its entry has no open legend. */
  lemma {:induction false} Unmarked(pile: Pile, index: nat)
    requires Sane(pile) && index + 1 < |pile|
    ensures EndLegend(Entries(pile, index + 1), index) == Entries(pile[..index + 1], index + 1)
    ensures !pile[index + 1].first ==> Entries(pile, index + 1) == Entries(pile[..index + 1], index + 1)
  {
    if index > 0 {
      var p, below := pile[..index + 1], Entries(pile, index);
      EntriesSame(pile, p, index);
      EntriesAre(pile, index);
      forall e | e in below ensures !OpenLegendAt(e, index) {
      }
      hide Entries;
      EntriesStep(pile, index);
      LastEntries(p, index);
      LastOwner(below, Entry(pile, index), index);
    } else {
      NoEntries(pile, pile[..1]);
    }
  }

  lemma {:induction false} NoEntries(pile: Pile, other: Pile)
    requires pile != [] && other != []
    ensures Entries(pile, 1) == Entries(other, 1) == []
  {
  }

  lemma {:induction false} LastEntries(pile: Pile, n: nat)
    requires 0 < n && n + 1 == |pile|
    ensures Entries(pile, n + 1) == Entries(pile, n) + if pile[n].name == "fieldset" then [Entry(pile, n)] else []
  {
  }

  lemma {:induction false} LastOwner(below: seq<Fieldset>, e: Fieldset, depth: nat)
    requires forall b | b in below :: !OpenLegendAt(b, depth)
    ensures EndLegend(below + [e], depth)
      == below + [if OpenLegendAt(e, depth) then e.(firstLegendOpen := false) else e]
    ensures EndLegend(below, depth) == below
  {
    var all := below + [e];
    assert LegendOwner(below, depth) == -1;
    if OpenLegendAt(e, depth) {
      assert LegendOwner(all, depth) == |below|;
    } else {
      forall k | 0 <= k < |all| ensures !OpenLegendAt(all[k], depth) {
        if k < |below| { assert all[k] in below; }
      }
      assert LegendOwner(all, depth) == -1;
    }
  }

  // ---- Whole parts of a document ----

  lemma {:induction false} WalkNode(pile: Pile, node: Node, foreign: W.Stack)
    requires pile != [] && Sane(pile) && Proper(node, foreign)
    ensures Walk(Stacks(pile), Tokens(node)) == Stacks(After(pile, node)) && Sane(After(pile, node))
    decreases node, 0
  {
    hide Stacks, Sane, Pushed, Popped;
    if node.Element? {
      var tag, end := Start(node.name, node.attributes), End(node.name);
      var pushed := Pushed(pile, node.name, node.attributes);
      PushStacks(pile, node.name, node.attributes);
      WalkSplit(Stacks(pile), [tag], TokensAll(node.children));
      WalkOne(Stacks(pile), tag);
      WalkAll(pushed, node.children, W.Opened(foreign, node.name, node.attributes));
      WalkSplit(Stacks(pile), [tag] + TokensAll(node.children), [end]);
      WalkOne(Stacks(AfterAll(pushed, node.children)), end);
      PopStacks(AfterAll(pushed, node.children), node.name);
    } else if node.ShadowRoot? {
      var tag, end := Start("template", node.attributes), End("template");
      WalkSplit(Stacks(pile), [tag], TokensAll(node.children));
      WalkOne(Stacks(pile), tag);
      WalkAll(pile, node.children, foreign);
      WalkSplit(Stacks(pile), [tag] + TokensAll(node.children), [end]);
      WalkOne(Stacks(AfterAll(pile, node.children)), end);
    } else {
      WalkLeaf(pile, node);
    }
  }

  lemma {:induction false} WalkLeaf(pile: Pile, node: Node)
    requires pile != [] && Sane(pile) && !node.Element? && !node.ShadowRoot? && (node.Void? ==> IsVoid(node.name))
    ensures Walk(Stacks(pile), Tokens(node)) == Stacks(After(pile, node)) && Sane(After(pile, node))
  {
    hide Stacks, Sane;
    WalkOne(Stacks(pile), Tokens(node)[0]);
    if !node.Leaf? {
      PushStacks(pile, node.name, node.attributes);
    }
  }

  lemma {:induction false} WalkAll(pile: Pile, nodes: seq<Node>, foreign: W.Stack)
    requires pile != [] && Sane(pile) && AllProper(nodes, foreign)
    ensures Walk(Stacks(pile), TokensAll(nodes)) == Stacks(AfterAll(pile, nodes)) && Sane(AfterAll(pile, nodes))
    decreases nodes, 1
  {
    hide Stacks, Sane, Tokens, After;
    if nodes != [] {
      var front, last := nodes[..|nodes| - 1], nodes[|nodes| - 1];
      WalkAll(pile, front, foreign);
      WalkSplit(Stacks(pile), TokensAll(front), Tokens(last));
      WalkNode(AfterAll(pile, front), last, foreign);
    }
  }

  /** At every position of a document the validator's stacks are the path from the root, with what the parts before
      it left in between. */
  lemma {:induction false} StacksArePile(pile: Pile, foreign: W.Stack, document: seq<Node>, root: seq<Node>, path: Path)
    requires pile != [] && Sane(pile) && AllProper(document, foreign) && At(document, root, path)
    ensures Walk(Stacks(pile), Prefix(root, path)) == Stacks(PileAt(pile, root, path)) && Sane(PileAt(pile, root, path))
    decreases |path|
  {
    hide Stacks, Sane, Pushed, Turn;
    var here := AfterAll(pile, root);
    ProperFront(document, foreign, |root|);
    WalkAll(pile, root, foreign);
    if path != [] {
      var f := path[0];
      var tag, rest := Start(f.name, f.attributes), Prefix(f.before, path[1..]);
      WalkSplit(Stacks(pile), TokensAll(root), [tag] + rest);
      WalkSplit(Stacks(here), [tag], rest);
      WalkOne(Stacks(here), tag);
      PushStacks(here, f.name, f.attributes);
      ChildrenProper(document, foreign, root, path);
      StacksArePile(Pushed(here, f.name, f.attributes), Inside(foreign, f.name, f.attributes),
                    document[|root|].children, f.before, path[1..]);
    } else {
      assert TokensAll(root) + [] == TokensAll(root);
    }
  }

  lemma {:induction false} ChildrenProper(document: seq<Node>, foreign: W.Stack, root: seq<Node>, path: Path)
    requires AllProper(document, foreign) && At(document, root, path) && path != []
    ensures AllProper(document[|root|].children, Inside(foreign, path[0].name, path[0].attributes))
    ensures document[|root|].Element? ==> path[0].name != "template"
  {
    assert Proper(document[|root|], foreign);
  }
}
