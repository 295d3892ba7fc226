/** The verdict of `validateLoginHTML` on disabled controls, against the document tree. */
module LoginJudged {
  import opened Markup
  import opened LoginPage
  import opened LoginTree
  import opened LoginPile
  import opened LoginDisabled
  import W = HTMLWalker

  /** Every template here asks for a shadow root. */
  predicate RootsOnly(tokens: seq<Token>) {
    forall token | token in tokens && token.Start? && token.name == "template" :: Shadow(token.attributes)
  }

  lemma {:induction false} NodeRoots(node: Node, foreign: W.Stack)
    requires Proper(node, foreign)
    ensures RootsOnly(Tokens(node))
    decreases node, 0
  {
    match node
    case Element(name, attributes, children) => NodesRoots(children, W.Opened(foreign, name, attributes));
    case ShadowRoot(_, children) => NodesRoots(children, foreign);
    case Void(name, _, _) => assert !IsVoid("template");
    case _ =>
  }

  lemma {:induction false} NodesRoots(nodes: seq<Node>, foreign: W.Stack)
    requires AllProper(nodes, foreign)
    ensures RootsOnly(TokensAll(nodes))
    decreases nodes, 1
  {
    if nodes != [] {
      NodesRoots(nodes[..|nodes| - 1], foreign);
      NodeRoots(nodes[|nodes| - 1], foreign);
    }
  }

  lemma {:induction false} PrefixRoots(document: seq<Node>, foreign: W.Stack, root: seq<Node>, path: Path)
    requires AllProper(document, foreign) && At(document, root, path)
    ensures RootsOnly(Prefix(root, path))
    decreases |path|
  {
    ProperFront(document, foreign, |root|);
    NodesRoots(root, foreign);
    if path != [] {
      var f := path[0];
      assert Proper(document[|root|], foreign);
      ChildrenProper(document, foreign, root, path);
      PrefixRoots(document[|root|].children, Inside(foreign, f.name, f.attributes), f.before, path[1..]);
    }
  }

  /** No shadow root so far stands in a tracked select, which would make its content inert. */
  predicate NoRootInSelect(tokens: seq<Token>) {
    forall i | 0 <= i < |tokens| && tokens[i].Start? && tokens[i].name == "template" && Run(BLANK, tokens[..i]).Pass? ::
      Run(BLANK, tokens[..i]).value.select.control == ""
  }

  predicate AllLive(scopes: seq<Scope>) {
    forall scope | scope in scopes :: !scope.inert
  }

  lemma {:induction false} OpenTurns(p: Page, name: string, attributes: Attributes)
    requires |p.scopes| > 0 && AllLive(p.scopes) && OpenTag(p, name, attributes).Pass?
    ensures var q := OpenTag(p, name, attributes).value;
      q.nesting == Push(OpenFieldsets(p.nesting, name, attributes), name) && AllLive(q.scopes)
  {
    hide OpenFieldsets, Push, OpenSelect, OpenControls, ControlComplaint, RecordControl;
  }

  /** In live content the nesting moves on its own. */
  lemma {:induction false} StepTurns(p: Page, token: Token)
    requires |p.scopes| > 0 && AllLive(p.scopes) && Step(p, token).Pass?
    requires token.Start? && token.name == "template" ==> Shadow(token.attributes) && p.select.control == ""
    ensures var q := Step(p, token).value; q.nesting == Turn(p.nesting, token) && AllLive(q.scopes)
  {
    hide OpenFieldsets, CloseNesting, CloseSelect, CloseControls, OpenTag, Push;
    if (token.Start? || token.SelfClosing?) && token.name != "template" {
      OpenTurns(p, token.name, token.attributes);
    }
  }

  lemma {:induction false} RunWalks(tokens: seq<Token>)
    requires RootsOnly(tokens) && NoRootInSelect(tokens) && Run(BLANK, tokens).Pass?
    ensures var p := Run(BLANK, tokens).value; p.nesting == Walk(BLANK.nesting, tokens) && AllLive(p.scopes)
  {
    hide Step, Turn;
    if tokens != [] {
      var front := tokens[..|tokens| - 1];
      assert forall i | 0 <= i < |front| :: front[i] == tokens[i] && front[..i] == tokens[..i];
      RunWalks(front);
      StepTurns(Run(BLANK, front).value, tokens[|tokens| - 1]);
    }
  }

  /** A start tag with or without a slash. */
  function Tag(name: string, attributes: Attributes, slash: bool): Token {
    if slash then SelfClosing(name, attributes) else Start(name, attributes)
  }

  /** The checker's disabled verdict at a position is the fieldset test on the stacks there. */
  lemma {:induction false} JudgedByStacks(tokens: seq<Token>, name: string, attributes: Attributes, slash: bool)
    requires RootsOnly(tokens) && NoRootInSelect(tokens) && Run(BLANK, tokens).Pass?
    requires IsControl(name) && Sensitive(Attr(attributes, "name"))
    ensures var p := Run(BLANK, tokens).value;
      && (Step(p, Tag(name, attributes, slash)) == Fail(DisabledControl) <==>
            && OpenSelect(p.select, name, attributes).Pass?
            && ("disabled" in attributes || InDisabledFieldset(Walk(BLANK.nesting, tokens))))
      && (Step(p, Tag(name, attributes, slash)).Pass? ==> OpenSelect(p.select, name, attributes).Pass?)
  {
    hide Run, Walk, InDisabledFieldset, OpenControls, Duplicate, Sensitive;
    var p := Run(BLANK, tokens).value;
    RunWalks(tokens);
    assert OpenFieldsets(p.nesting, name, attributes) == p.nesting;
  }

  /** In a right document a sensitive control, however its tag is written, is refused as disabled exactly when the tree
      disables it or it carries the attribute; only inside a tracked select is it refused for another reason first. */
  lemma {:induction false} JudgedByTree(document: seq<Node>, root: seq<Node>, path: Path, name: string,
                                        attributes: Attributes, slash: bool)
    requires AllProper(document, []) && RightDocument(document) && At(document, root, path)
    requires IsControl(name) && Sensitive(Attr(attributes, "name"))
    requires Run(BLANK, Prefix(root, path)).Pass? && NoRootInSelect(Prefix(root, path))
    ensures var p := Run(BLANK, Prefix(root, path)).value;
      && (Step(p, Tag(name, attributes, slash)) == Fail(DisabledControl) <==>
            OpenSelect(p.select, name, attributes).Pass? && ("disabled" in attributes || TreeDisabled(path)))
      && (Step(p, Tag(name, attributes, slash)).Pass? ==> OpenSelect(p.select, name, attributes).Pass?)
  {
    hide Run, Step, Walk, TreeDisabled, InDisabledFieldset, OpenSelect, Prefix, Sensitive, IsControl, NoRootInSelect,
      Right;
    PrefixRoots(document, [], root, path);
    JudgedByStacks(Prefix(root, path), name, attributes, slash);
    VerdictRightIff(document);
  }

  /** Whatever follows, an accepted right page has no sensitive control that the tree disables. */
  lemma {:induction false} AcceptedControlIsEnabled(
      document: seq<Node>, root: seq<Node>, path: Path, name: string, attributes: Attributes, slash: bool,
      rest: seq<Token>, basePath: string, mode: Mode, requestID: string, csrf: string)
    requires AllProper(document, []) && RightDocument(document) && At(document, root, path)
    requires IsControl(name) && Sensitive(Attr(attributes, "name")) && NoRootInSelect(Prefix(root, path))
    requires Validate(Prefix(root, path) + [Tag(name, attributes, slash)] + rest, basePath, mode, requestID, csrf).Pass?
    ensures "disabled" !in attributes && !TreeDisabled(path)
  {
    hide Step, Prefix, TreeDisabled, FormComplaint, Sensitive, IsControl, NoRootInSelect, Right;
    var before, tag := Prefix(root, path), [Tag(name, attributes, slash)];
    RunSplit(BLANK, before + tag, rest);
    RunSplit(BLANK, before, tag);
    assert tag[..0] == [];
    JudgedByTree(document, root, path, name, attributes, slash);
  }
}
