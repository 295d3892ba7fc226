/** Four documents that `validateLoginHTML` judges otherwise than their trees: three enabled controls it refuses, and a
    complete login page it accepts with a disabled password control. None of them is a right document. And a login page
    with a live control that it never looks at. */
module LoginWitnesses {
  import opened Markup
  import opened LoginPage
  import opened LoginTree
  import opened LoginPile
  import opened LoginDisabled
  import opened LoginWalked
  import opened LoginJudged
  import W = HTMLWalker
  import T = Templates
  import Erasure = LoginTemplates

  const NONE: Attributes := map[]
  const DISABLED: Attributes := map["disabled" := ""]

  // ---- Runs over tags that are neither forms, controls nor templates ----

  predicate Quiet(token: Token) {
    (token.Start? || token.SelfClosing? || token.End?) ==>
      token.name != "form" && token.name != "template" && !IsControl(token.name)
  }

  predicate Idle(p: Page) {
    && |p.scopes| > 0 && !Top(p.scopes).inert && p.select == NO_SELECT
    && (Top(p.scopes).postForm >= 0 ==> |Top(p.scopes).forms| > 0)
  }

  lemma {:induction false} QuietStep(p: Page, token: Token)
    requires Idle(p) && Quiet(token)
    ensures Step(p, token) == Pass(p.(nesting := Turn(p.nesting, token)))
  {
    hide OpenFieldsets, CloseNesting, Push;
    if token.End? {
      assert CloseSelect(NO_SELECT, token.name) == NO_SELECT;
      assert Replace(p.scopes, Top(p.scopes)) == p.scopes;
    }
  }

  lemma {:induction false} QuietRun(p: Page, tokens: seq<Token>)
    requires Idle(p) && forall token | token in tokens :: Quiet(token)
    ensures Run(p, tokens) == Pass(p.(nesting := Walk(p.nesting, tokens)))
  {
    hide Step, Turn, Quiet;
    if tokens != [] {
      QuietRun(p, tokens[..|tokens| - 1]);
      QuietStep(p.(nesting := Walk(p.nesting, tokens[..|tokens| - 1])), tokens[|tokens| - 1]);
    }
  }

  lemma {:induction false} Walk3(n: Nesting, a: Token, b: Token, c: Token)
    ensures Walk(n, [a, b, c]) == Turn(Turn(Turn(n, a), b), c)
  {
    hide Turn;
    assert [a, b, c][..2] == [a, b] && [a, b][..1] == [a] && [a][..0] == [];
    assert Walk(n, [a]) == Turn(n, a);
    assert Walk(n, [a, b]) == Turn(Turn(n, a), b);
  }

  lemma {:induction false} FieldsetTurn(n: Nesting, attributes: Attributes)
    ensures Turn(n, Start("fieldset", attributes))
         == Nesting(n.elements + ["fieldset"],
                    n.fieldsets + [Fieldset(|n.elements|, "disabled" in attributes, false, false, -1)])
  {
    assert !IsVoid("fieldset");
  }

  /** A tag that is no fieldset, nor a legend on one. */
  lemma {:induction false} OtherTurn(n: Nesting, name: string, attributes: Attributes)
    requires name != "fieldset" && name != "template" && !IsVoid(name)
    requires name == "legend" && n.elements != [] ==> n.elements[|n.elements| - 1] != "fieldset"
    ensures Turn(n, Start(name, attributes)) == n.(elements := n.elements + [name])
    ensures Turn(n, SelfClosing(name, attributes)) == n.(elements := n.elements + [name])
  {
  }

  lemma {:induction false} NamesNotVoid()
    ensures !IsVoid("svg") && !IsVoid("legend") && !IsVoid("foreignobject") && !IsVoid("div")
  {
  }

  lemma {:induction false} OpenStands(n: Nesting, f: Fieldset)
    requires n.fieldsets == [f] && f.disabled && !f.firstLegendOpen
    ensures InDisabledFieldset(n)
  {
    assert f in n.fieldsets;
  }

  /** A control that meets a standing fieldset ends the check. */
  lemma {:induction false} Refused(tokens: seq<Token>, name: string, attributes: Attributes, rest: seq<Token>,
                                   basePath: string, mode: Mode, requestID: string, csrf: string)
    requires RootsOnly(tokens) && NoRootInSelect(tokens) && Run(BLANK, tokens).Pass?
    requires Run(BLANK, tokens).value.select.control == "" && InDisabledFieldset(Walk(BLANK.nesting, tokens))
    requires IsControl(name) && Sensitive(Attr(attributes, "name"))
    ensures Validate(tokens + [Start(name, attributes)] + rest, basePath, mode, requestID, csrf)
      == Fail(DisabledControl)
  {
    hide Step, FormComplaint, Sensitive, IsControl, NoRootInSelect, InDisabledFieldset, Walk;
    var tag := [Start(name, attributes)];
    JudgedByStacks(tokens, name, attributes, false);
    RunSplit(BLANK, tokens + tag, rest);
    RunSplit(BLANK, tokens, tag);
    assert tag[..0] == [];
  }

  lemma {:induction false} QuietRefused(tokens: seq<Token>, attributes: Attributes, rest: seq<Token>,
                                        basePath: string, mode: Mode, requestID: string, csrf: string)
    requires (forall token | token in tokens :: Quiet(token)) && InDisabledFieldset(Walk(BLANK.nesting, tokens))
    requires Sensitive(Attr(attributes, "name"))
    ensures Validate(tokens + [Start("input", attributes)] + rest, basePath, mode, requestID, csrf)
      == Fail(DisabledControl)
  {
    hide Run, Walk, Sensitive, InDisabledFieldset;
    QuietRun(BLANK, tokens);
    Refused(tokens, "input", attributes, rest, basePath, mode, requestID, csrf);
  }

  /** A position that is judged wrong shows that the document is not right. */
  lemma {:induction false} NotRight(document: seq<Node>, root: seq<Node>, path: Path)
    requires AllProper(document, []) && At(document, root, path)
    requires InDisabledFieldset(Walk(BLANK.nesting, Prefix(root, path))) <==> !TreeDisabled(path)
    ensures !RightDocument(document)
  {
    hide *;
    VerdictRightIff(document);
  }

  // ---- Writing small documents ----

  lemma {:induction false} OneNode(node: Node)
    ensures TokensAll([node]) == Tokens(node)
  {
    assert [node][..0] == [] && TokensAll([]) == [];
  }

  lemma {:induction false} OneMore(front: seq<Node>, node: Node)
    ensures TokensAll(front + [node]) == TokensAll(front) + Tokens(node)
  {
    assert (front + [node])[..|front|] == front;
  }

  lemma {:induction false} TwoNodes(a: Node, b: Node)
    ensures TokensAll([a, b]) == Tokens(a) + Tokens(b)
  {
    OneNode(a);
    OneMore([a], b);
    assert [a] + [b] == [a, b];
  }

  lemma {:induction false} OneElement(name: string, attributes: Attributes, children: seq<Node>)
    ensures TokensAll([Element(name, attributes, children)])
         == [Start(name, attributes)] + TokensAll(children) + [End(name)]
  {
    hide TokensAll;
    OneNode(Element(name, attributes, children));
  }

  lemma {:induction false} OneStep(f: Frame, path: Path)
    ensures Prefix([], [f] + path) == [Start(f.name, f.attributes)] + Prefix(f.before, path)
    ensures Prefix([], []) == []
  {
    assert ([f] + path)[1..] == path;
    assert TokensAll([]) == [];
  }

  lemma {:induction false} AtStep(node: Node, f: Frame, path: Path)
    requires Opens(node, f) && At(node.children, f.before, path)
    ensures At([node], [], [f] + path)
  {
    hide Opens;
    assert ([f] + path)[1..] == path;
  }

  lemma {:induction false} AtStart(nodes: seq<Node>)
    ensures At(nodes, [], [])
  {
  }

  /** One element, given its children. */
  lemma {:induction false} ElementFits(name: string, attributes: Attributes, children: seq<Node>, foreign: W.Stack)
    requires name != "template" && !IsVoid(name) && Fits(foreign, name, attributes)
    requires W.Opened(foreign, name, attributes) == foreign ==> Unnamed(foreign, name)
    requires forall child | child in children ::
      Proper(child, W.Opened(foreign, name, attributes)) && Apart(child, W.Opened(foreign, name, attributes))
    ensures Proper(Element(name, attributes, children), foreign) && Apart(Element(name, attributes, children), foreign)
  {
    hide Fits, W.Opened, IsVoid;
  }

  lemma {:induction false} InputFits(attributes: Attributes, foreign: W.Stack)
    requires W.Current(foreign).HTML?
    ensures Proper(Void("input", attributes, false), foreign) && Apart(Void("input", attributes, false), foreign)
  {
  }

  lemma {:induction false} AllOfOne(node: Node, foreign: W.Stack)
    requires Proper(node, foreign) && Apart(node, foreign)
    ensures AllProper([node], foreign) && AllApart([node], foreign)
  {
    hide Proper, Apart;
  }

  function Input(controlName: string): Node {
    Void("input", map["name" := controlName], false)
  }

  // ---- An enabled control in a first legend that follows a self-closing tag ----

  function LegendAfterSvg(): seq<Node> {
    [Element("fieldset", DISABLED, [Closed("svg", NONE), Element("legend", NONE, [Input("username")])])]
  }

  const IN_LEGEND: Path := [Frame("fieldset", DISABLED, [Closed("svg", NONE)]), Frame("legend", NONE, [])]

  lemma {:induction false} LegendAfterSvgPrefix()
    ensures Prefix([], IN_LEGEND) == [Start("fieldset", DISABLED), SelfClosing("svg", NONE), Start("legend", NONE)]
  {
    hide TokensAll, Prefix;
    OneStep(IN_LEGEND[0], [IN_LEGEND[1]]);
    assert [IN_LEGEND[0]] + [IN_LEGEND[1]] == IN_LEGEND;
    PrefixAfter(Closed("svg", NONE), IN_LEGEND[1]);
    NoTokens();
  }

  lemma {:induction false} PrefixAfter(before: Node, f: Frame)
    ensures Prefix([before], [f]) == Tokens(before) + [Start(f.name, f.attributes)] + TokensAll(f.before)
  {
    hide Tokens, TokensAll;
    OneNode(before);
    assert [f][1..] == [] && Prefix(f.before, []) == TokensAll(f.before) + [] == TokensAll(f.before);
  }

  lemma {:induction false} LegendAfterSvgTokens()
    ensures TokensAll(LegendAfterSvg()) == Prefix([], IN_LEGEND) + [Start("input", map["name" := "username"])]
                                         + [End("legend"), End("fieldset")]
  {
    hide TokensAll, Prefix;
    var svg, legend := Closed("svg", NONE), Element("legend", NONE, [Input("username")]);
    LegendAfterSvgPrefix();
    OneNode(Input("username"));
    TwoNodes(svg, legend);
    OneElement("fieldset", DISABLED, [svg, legend]);
  }

  lemma {:induction false} LegendAfterSvgStands()
    ensures InDisabledFieldset(Walk(BLANK.nesting,
                                    [Start("fieldset", DISABLED), SelfClosing("svg", NONE), Start("legend", NONE)]))
  {
    hide Walk, Turn, InDisabledFieldset, IsVoid;
    NamesNotVoid();
    var a, b, c := Start("fieldset", DISABLED), SelfClosing("svg", NONE), Start("legend", NONE);
    Walk3(BLANK.nesting, a, b, c);
    FieldsetTurn(BLANK.nesting, DISABLED);
    var first := Turn(BLANK.nesting, a);
    OtherTurn(first, "svg", NONE);
    OtherTurn(Turn(first, b), "legend", NONE);
    OpenStands(Turn(Turn(first, b), c), Fieldset(0, true, false, false, -1));
  }

  lemma {:induction false} LegendAfterSvgProper()
    ensures AllProper(LegendAfterSvg(), []) && AllApart(LegendAfterSvg(), [])
  {
    hide Proper, Apart, AllProper, AllApart;
    var svg, legend := Closed("svg", NONE), Element("legend", NONE, [Input("username")]);
    assert W.Opened([], "fieldset", DISABLED) == [] && W.Opened([], "legend", NONE) == [];
    InputFits(map["name" := "username"], []);
    ElementFits("legend", NONE, [Input("username")], []);
    SvgClosed();
    assert forall child | child in [svg, legend] :: child == svg || child == legend;
    ElementFits("fieldset", DISABLED, [svg, legend], []);
    AllOfOne(Element("fieldset", DISABLED, [svg, legend]), []);
  }

  lemma {:induction false} SvgClosed()
    ensures Proper(Closed("svg", NONE), []) && Apart(Closed("svg", NONE), [])
  {
  }

  lemma {:induction false} LegendAfterSvgAt()
    ensures At(LegendAfterSvg(), [], IN_LEGEND)
  {
    hide At;
    var svg, legend := Closed("svg", NONE), Element("legend", NONE, [Input("username")]);
    AtStart([Input("username")]);
    AtSecond(svg, legend, IN_LEGEND[1]);
    AtStep(Element("fieldset", DISABLED, [svg, legend]), IN_LEGEND[0], [IN_LEGEND[1]]);
    assert [IN_LEGEND[0]] + [IN_LEGEND[1]] == IN_LEGEND;
  }

  lemma {:induction false} AtSecond(first: Node, second: Node, f: Frame)
    requires Opens(second, f) && At(second.children, f.before, [])
    ensures At([first, second], [first], [f])
  {
    hide Opens;
    assert [f][1..] == [];
  }

  lemma {:induction false} LegendAfterSvgEnabled()
    ensures !TreeDisabled(IN_LEGEND)
  {
    assert !HasLegend(IN_LEGEND[0].before) && InFirstLegend(IN_LEGEND, 0);
    assert IN_LEGEND[1].name != "fieldset";
  }

  /** `<fieldset disabled><svg/><legend><input name="username">`: the control in the first legend is enabled, but the
      page is refused for it, because the closed `svg` stays on the stack and hides that the legend is the fieldset's
      child. */
  lemma {:induction false} RefusesEnabledControl(basePath: string, mode: Mode, requestID: string, csrf: string)
    ensures var raw := [Start("fieldset", DISABLED), SelfClosing("svg", NONE), Start("legend", NONE),
                        Start("input", map["name" := "username"]), End("legend"), End("fieldset")];
      && raw == TokensAll(LegendAfterSvg()) && W.Walk(raw).1 == raw
      && At(LegendAfterSvg(), [], IN_LEGEND) && raw[..3] == Prefix([], IN_LEGEND) && !TreeDisabled(IN_LEGEND)
      && !RightDocument(LegendAfterSvg())
      && Validate(raw, basePath, mode, requestID, csrf) == Fail(DisabledControl)
  {
    hide Validate, TokensAll, Prefix, Walk, Run, InDisabledFieldset, TreeDisabled, At, AllProper, AllApart,
      RightDocument;
    LegendAfterSvgPrefix();
    LegendAfterSvgTokens();
    LegendAfterSvgProper();
    LegendAfterSvgAt();
    LegendAfterSvgEnabled();
    LegendAfterSvgStands();
    DocumentIsHandedOn(LegendAfterSvg());
    NotRight(LegendAfterSvg(), [], IN_LEGEND);
    QuietRefused(Prefix([], IN_LEGEND), map["name" := "username"], [End("legend"), End("fieldset")],
                 basePath, mode, requestID, csrf);
  }

  // ---- A control below a fieldset that is not an HTML element ----

  function ForeignFieldset(): seq<Node> {
    [Element("svg", NONE, [Element("fieldset", DISABLED, [Element("foreignobject", NONE, [Input("csrf")])])])]
  }

  const IN_FOREIGN: Path := [Frame("svg", NONE, []), Frame("fieldset", DISABLED, []), Frame("foreignobject", NONE, [])]

  /** Three frames without siblings. */
  lemma {:induction false} ThreeSteps(a: Frame, b: Frame, c: Frame)
    requires a.before == b.before == c.before == []
    ensures Prefix([], [a, b, c])
         == [Start(a.name, a.attributes), Start(b.name, b.attributes), Start(c.name, c.attributes)]
  {
    hide Prefix;
    OneStep(c, []);
    OneStep(b, [c]);
    OneStep(a, [b, c]);
    assert [c] + [] == [c] && [b] + [c] == [b, c] && [a] + [b, c] == [a, b, c];
  }

  lemma {:induction false} AtThree(node: Node, a: Frame, b: Frame, c: Frame)
    requires a.before == b.before == c.before == []
    requires Opens(node, a) && |node.children| == 1 && Opens(node.children[0], b)
    requires |node.children[0].children| == 1 && Opens(node.children[0].children[0], c)
    ensures At([node], [], [a, b, c])
  {
    hide At;
    var middle := node.children[0];
    var inner := middle.children[0];
    assert node.children == [middle] && middle.children == [inner];
    AtStart(inner.children);
    assert [c] + [] == [c] && [b] + [c] == [b, c] && [a] + [b, c] == [a, b, c];
    AtStep(inner, c, []);
    AtStep(middle, b, [c]);
    AtStep(node, a, [b, c]);
  }

  lemma {:induction false} ForeignFieldsetTokens()
    ensures TokensAll(ForeignFieldset()) == Prefix([], IN_FOREIGN) + [Start("input", map["name" := "csrf"])]
                                          + [End("foreignobject"), End("fieldset"), End("svg")]
    ensures Prefix([], IN_FOREIGN) == [Start("svg", NONE), Start("fieldset", DISABLED), Start("foreignobject", NONE)]
  {
    hide TokensAll, Prefix;
    var inner := Element("foreignobject", NONE, [Input("csrf")]);
    OneNode(Input("csrf"));
    OneElement("foreignobject", NONE, [Input("csrf")]);
    OneElement("fieldset", DISABLED, [inner]);
    OneElement("svg", NONE, [Element("fieldset", DISABLED, [inner])]);
    ThreeSteps(IN_FOREIGN[0], IN_FOREIGN[1], IN_FOREIGN[2]);
  }

  lemma {:induction false} ForeignFieldsetStands()
    ensures InDisabledFieldset(Walk(BLANK.nesting,
                                    [Start("svg", NONE), Start("fieldset", DISABLED), Start("foreignobject", NONE)]))
  {
    hide Walk, Turn, InDisabledFieldset, IsVoid;
    NamesNotVoid();
    var a, b, c := Start("svg", NONE), Start("fieldset", DISABLED), Start("foreignobject", NONE);
    Walk3(BLANK.nesting, a, b, c);
    OtherTurn(BLANK.nesting, "svg", NONE);
    var first := Turn(BLANK.nesting, a);
    FieldsetTurn(first, DISABLED);
    OtherTurn(Turn(first, b), "foreignobject", NONE);
    OpenStands(Turn(Turn(first, b), c), Fieldset(1, true, false, false, -1));
  }

  /** The namespaces inside: the fieldset is SVG, and HTML goes on below the integration point. */
  lemma {:induction false} ForeignStacks()
    ensures W.Opened([], "svg", NONE) == [W.Frame("svg", W.SVG, false)]
    ensures var svg := W.Opened([], "svg", NONE);
      W.Opened(svg, "fieldset", DISABLED) == svg + [W.Frame("fieldset", W.SVG, false)]
    ensures var fieldset := W.Opened(W.Opened([], "svg", NONE), "fieldset", DISABLED);
      && W.Opened(fieldset, "foreignobject", NONE) == fieldset + [W.Frame("foreignobject", W.SVG, true)]
      && W.Current(W.Opened(fieldset, "foreignobject", NONE)).HTML?
  {
  }

  lemma {:induction false} ForeignFieldsetProper()
    ensures AllProper(ForeignFieldset(), []) && AllApart(ForeignFieldset(), [])
  {
    ForeignStacks();
    hide W.Opened, Proper, Apart, AllProper, AllApart;
    var svg := W.Opened([], "svg", NONE);
    var fieldset := W.Opened(svg, "fieldset", DISABLED);
    var inner := Element("foreignobject", NONE, [Input("csrf")]);
    InputFits(map["name" := "csrf"], W.Opened(fieldset, "foreignobject", NONE));
    ElementFits("foreignobject", NONE, [Input("csrf")], fieldset);
    ElementFits("fieldset", DISABLED, [inner], svg);
    ElementFits("svg", NONE, [Element("fieldset", DISABLED, [inner])], []);
    AllOfOne(ForeignFieldset()[0], []);
  }

  lemma {:induction false} ForeignFieldsetEnabled()
    ensures !TreeDisabled(IN_FOREIGN)
  {
    ForeignStacks();
    assert Around([], IN_FOREIGN, 1) == W.Opened([], "svg", NONE) by {
      assert Around(W.Opened([], "svg", NONE), IN_FOREIGN[1..], 0) == W.Opened([], "svg", NONE);
    }
    assert forall i | 0 <= i < 3 && i != 1 :: IN_FOREIGN[i].name != "fieldset";
  }

  /** `<svg><fieldset disabled><foreignObject><input name="csrf">`: an SVG fieldset disables nothing, but the page is
      refused, because the fieldset stack does not ask for the namespace, which the walker knows. */
  lemma {:induction false} RefusesForeignFieldset(basePath: string, mode: Mode, requestID: string, csrf: string)
    ensures var raw := [Start("svg", NONE), Start("fieldset", DISABLED), Start("foreignobject", NONE),
                        Start("input", map["name" := "csrf"]), End("foreignobject"), End("fieldset"), End("svg")];
      && raw == TokensAll(ForeignFieldset()) && W.Walk(raw).1 == raw
      && At(ForeignFieldset(), [], IN_FOREIGN) && raw[..3] == Prefix([], IN_FOREIGN) && !TreeDisabled(IN_FOREIGN)
      && !RightDocument(ForeignFieldset())
      && Validate(raw, basePath, mode, requestID, csrf) == Fail(DisabledControl)
  {
    hide Validate, TokensAll, Prefix, Walk, Run, InDisabledFieldset, TreeDisabled, At, AllProper, AllApart,
      RightDocument;
    ForeignFieldsetTokens();
    ForeignFieldsetProper();
    AtThree(ForeignFieldset()[0], IN_FOREIGN[0], IN_FOREIGN[1], IN_FOREIGN[2]);
    ForeignFieldsetEnabled();
    ForeignFieldsetStands();
    DocumentIsHandedOn(ForeignFieldset());
    NotRight(ForeignFieldset(), [], IN_FOREIGN);
    QuietRefused(Prefix([], IN_FOREIGN), map["name" := "csrf"], [End("foreignobject"), End("fieldset"), End("svg")],
                 basePath, mode, requestID, csrf);
  }

  // ---- A control in a live shadow root below a disabled fieldset ----

  const OPEN_ROOT: Attributes := map["shadowrootmode" := "open"]

  function RootInFieldset(): seq<Node> {
    [Element("fieldset", DISABLED, [Element("div", NONE, [ShadowRoot(OPEN_ROOT, [Input("csrf")])])])]
  }

  const IN_ROOT: Path := [Frame("fieldset", DISABLED, []), Frame("div", NONE, []), Frame("template", OPEN_ROOT, [])]

  lemma {:induction false} RootInFieldsetTokens()
    ensures TokensAll(RootInFieldset()) == Prefix([], IN_ROOT) + [Start("input", map["name" := "csrf"])]
                                         + [End("template"), End("div"), End("fieldset")]
    ensures Prefix([], IN_ROOT) == [Start("fieldset", DISABLED), Start("div", NONE), Start("template", OPEN_ROOT)]
  {
    hide TokensAll, Prefix;
    var inner := ShadowRoot(OPEN_ROOT, [Input("csrf")]);
    OneNode(Input("csrf"));
    OneNode(inner);
    OneElement("div", NONE, [inner]);
    OneElement("fieldset", DISABLED, [Element("div", NONE, [inner])]);
    ThreeSteps(IN_ROOT[0], IN_ROOT[1], IN_ROOT[2]);
  }

  lemma {:induction false} OpenRootIsLive()
    ensures Shadow(OPEN_ROOT)
  {
    assert ToLower("open") == "open";
  }

  lemma {:induction false} RootFits(attributes: Attributes, child: Node)
    requires Shadow(attributes) && Proper(child, []) && Apart(child, [])
    ensures Proper(ShadowRoot(attributes, [child]), []) && Apart(ShadowRoot(attributes, [child]), [])
  {
    hide Shadow;
  }

  lemma {:induction false} RootInFieldsetProper()
    ensures AllProper(RootInFieldset(), []) && AllApart(RootInFieldset(), [])
  {
    hide Proper, Apart, AllProper, AllApart, Shadow;
    assert W.Opened([], "fieldset", DISABLED) == [] && W.Opened([], "div", NONE) == [];
    var inner := ShadowRoot(OPEN_ROOT, [Input("csrf")]);
    OpenRootIsLive();
    InputFits(map["name" := "csrf"], []);
    RootFits(OPEN_ROOT, Input("csrf"));
    ElementFits("div", NONE, [inner], []);
    ElementFits("fieldset", DISABLED, [Element("div", NONE, [inner])], []);
    AllOfOne(RootInFieldset()[0], []);
  }

  lemma {:induction false} RootEnables()
    ensures !TreeDisabled(IN_ROOT)
  {
    assert IN_ROOT[2].name == "template";
  }

  lemma {:induction false} RootInFieldsetStands()
    ensures InDisabledFieldset(Walk(BLANK.nesting,
                                    [Start("fieldset", DISABLED), Start("div", NONE), Start("template", OPEN_ROOT)]))
  {
    hide Walk, InDisabledFieldset, IsVoid;
    NamesNotVoid();
    var a, b, c := Start("fieldset", DISABLED), Start("div", NONE), Start("template", OPEN_ROOT);
    Walk3(BLANK.nesting, a, b, c);
    FieldsetTurn(BLANK.nesting, DISABLED);
    OtherTurn(Turn(BLANK.nesting, a), "div", NONE);
    OpenStands(Turn(Turn(BLANK.nesting, a), b), Fieldset(0, true, false, false, -1));
  }

  lemma {:induction false} RootInFieldsetRuns()
    ensures var tokens := [Start("fieldset", DISABLED), Start("div", NONE), Start("template", OPEN_ROOT)];
      && RootsOnly(tokens) && NoRootInSelect(tokens)
      && Run(BLANK, tokens).Pass? && Run(BLANK, tokens).value.select.control == ""
  {
    hide Walk;
    var tokens := [Start("fieldset", DISABLED), Start("div", NONE), Start("template", OPEN_ROOT)];
    OpenRootIsLive();
    QuietRun(BLANK, tokens[..2]);
    assert Run(BLANK, tokens) == Step(Run(BLANK, tokens[..2]).value, tokens[2]);
  }

  /** `<fieldset disabled><div><template shadowrootmode="open"><input name="csrf">`: no fieldset is an ancestor of the
      control in its tree, but the page is refused, because the fieldset stack is shared with shadow roots. */
  lemma {:induction false} RefusesShadowRoot(basePath: string, mode: Mode, requestID: string, csrf: string)
    ensures var raw := [Start("fieldset", DISABLED), Start("div", NONE), Start("template", OPEN_ROOT),
                        Start("input", map["name" := "csrf"]), End("template"), End("div"), End("fieldset")];
      && raw == TokensAll(RootInFieldset()) && W.Walk(raw).1 == raw
      && At(RootInFieldset(), [], IN_ROOT) && raw[..3] == Prefix([], IN_ROOT) && !TreeDisabled(IN_ROOT)
      && !RightDocument(RootInFieldset())
      && Validate(raw, basePath, mode, requestID, csrf) == Fail(DisabledControl)
  {
    hide Validate, TokensAll, Prefix, Walk, Run, InDisabledFieldset, TreeDisabled, At, AllProper, AllApart,
      NoRootInSelect, RootsOnly, RightDocument;
    RootInFieldsetTokens();
    RootInFieldsetProper();
    AtThree(RootInFieldset()[0], IN_ROOT[0], IN_ROOT[1], IN_ROOT[2]);
    RootEnables();
    RootInFieldsetStands();
    RootInFieldsetRuns();
    DocumentIsHandedOn(RootInFieldset());
    NotRight(RootInFieldset(), [], IN_ROOT);
    Refused(Prefix([], IN_ROOT), "input", map["name" := "csrf"], [End("template"), End("div"), End("fieldset")],
            basePath, mode, requestID, csrf);
  }

  // ---- An accepted page with a disabled password control ----

  function PostForm(basePath: string): Attributes {
    map["method" := "POST", "action" := basePath + "/login"]
  }

  function Hidden(controlName: string, value: string): Attributes {
    map["name" := controlName, "type" := "hidden", "value" := value]
  }

  const USERNAME: Attributes := map["name" := "username"]
  const PASSWORD: Attributes := map["name" := "password", "type" := "password"]

  const SVG_LEGENDS := Element("svg", NONE, [Closed("legend", NONE), Closed("svg", NONE)])
  const OPEN_LEGEND := Element("legend", NONE, [SVG_LEGENDS])

  /** What stands in the form before the fieldset. */
  function Fields(requestID: string, csrf: string): seq<Node> {
    [Void("input", Hidden("authRequestID", requestID), false), Void("input", Hidden("csrf", csrf), false),
     Void("input", USERNAME, false)]
  }

  function LoginDocument(basePath: string, requestID: string, csrf: string): seq<Node> {
    [Element("form", PostForm(basePath), Fields(requestID, csrf) + [FIELDSET])]
  }

  function InLogin(basePath: string, requestID: string, csrf: string): Path {
    [Frame("form", PostForm(basePath), Fields(requestID, csrf)), Frame("fieldset", DISABLED, [OPEN_LEGEND])]
  }

  function Head(basePath: string, requestID: string, csrf: string): seq<Token> {
    [Start("form", PostForm(basePath)), Start("input", Hidden("authRequestID", requestID)),
     Start("input", Hidden("csrf", csrf)), Start("input", USERNAME)]
  }

  const LEGEND: seq<Token> :=
    [Start("fieldset", DISABLED), Start("legend", NONE), Start("svg", NONE),
     SelfClosing("legend", NONE), SelfClosing("svg", NONE), End("svg"), End("legend")]

  lemma {:induction false} FieldsTokens(requestID: string, csrf: string)
    ensures TokensAll(Fields(requestID, csrf)) == [Start("input", Hidden("authRequestID", requestID)),
                                                   Start("input", Hidden("csrf", csrf)), Start("input", USERNAME)]
  {
    var f := Fields(requestID, csrf);
    TwoNodes(f[0], f[1]);
    OneMore(f[..2], f[2]);
    assert f[..2] == [f[0], f[1]] && f[..2] + [f[2]] == f;
  }

  lemma {:induction false} LegendTokens()
    ensures TokensAll([OPEN_LEGEND]) == LEGEND[1..]
  {
    OneNode(OPEN_LEGEND);
    OneNode(SVG_LEGENDS);
    TwoNodes(Closed("legend", NONE), Closed("svg", NONE));
    assert TokensAll(SVG_LEGENDS.children) == [SelfClosing("legend", NONE), SelfClosing("svg", NONE)];
    assert TokensAll([SVG_LEGENDS]) == LEGEND[2..6];
  }

  lemma {:induction false} LoginPrefix(basePath: string, requestID: string, csrf: string)
    ensures Prefix([], InLogin(basePath, requestID, csrf)) == Head(basePath, requestID, csrf) + LEGEND
  {
    hide Tokens, TokensAll;
    var path := InLogin(basePath, requestID, csrf);
    FieldsTokens(requestID, csrf);
    LegendTokens();
    NoTokens();
    assert path[1..] == [path[1]] && path[1..][1..] == [];
    assert Prefix(path[1].before, []) == LEGEND[1..];
    assert Prefix(path[0].before, path[1..]) == TokensAll(path[0].before) + LEGEND;
  }

  lemma {:induction false} NoTokens()
    ensures TokensAll([]) == []
  {
  }

  lemma {:induction false} LoginTokens(basePath: string, requestID: string, csrf: string)
    ensures TokensAll(LoginDocument(basePath, requestID, csrf))
         == Head(basePath, requestID, csrf) + LEGEND + [Start("input", PASSWORD)] + [End("fieldset"), End("form")]
  {
    hide TokensAll;
    var password := Void("input", PASSWORD, false);
    var fieldset := Element("fieldset", DISABLED, [OPEN_LEGEND, password]);
    FieldsTokens(requestID, csrf);
    LegendTokens();
    OneNode(OPEN_LEGEND);
    TwoNodes(OPEN_LEGEND, password);
    assert TokensAll([OPEN_LEGEND, password]) == LEGEND[1..] + [Start("input", PASSWORD)];
    OneMore(Fields(requestID, csrf), fieldset);
    OneNode(LoginDocument(basePath, requestID, csrf)[0]);
  }

  const FIELDSET := Element("fieldset", DISABLED, [OPEN_LEGEND, Void("input", PASSWORD, false)])

  lemma {:induction false} SvgProper()
    ensures Proper(SVG_LEGENDS, []) && Apart(SVG_LEGENDS, [])
  {
    var svg := W.Opened([], "svg", NONE);
    assert svg == [W.Frame("svg", W.SVG, false)];
    ClosedFits("legend", svg);
    ClosedFits("svg", svg);
    hide Proper, Apart, W.Opened;
    assert forall child | child in SVG_LEGENDS.children ::
      child == Closed("legend", NONE) || child == Closed("svg", NONE);
    ElementFits("svg", NONE, SVG_LEGENDS.children, []);
  }

  lemma {:induction false} ClosedFits(name: string, foreign: W.Stack)
    requires !W.Current(foreign).HTML? && !W.Breakout(name, NONE) && !IsVoid(name)
    ensures Proper(Closed(name, NONE), foreign) && Apart(Closed(name, NONE), foreign)
  {
  }

  lemma {:induction false} FieldsetProper()
    ensures Proper(FIELDSET, []) && Apart(FIELDSET, [])
  {
    hide Proper, Apart;
    var password := Void("input", PASSWORD, false);
    assert W.Opened([], "fieldset", DISABLED) == [] && W.Opened([], "legend", NONE) == [];
    SvgProper();
    InputFits(PASSWORD, []);
    assert forall child | child in OPEN_LEGEND.children :: child == SVG_LEGENDS;
    ElementFits("legend", NONE, OPEN_LEGEND.children, []);
    assert forall child | child in FIELDSET.children :: child == OPEN_LEGEND || child == password;
    ElementFits("fieldset", DISABLED, FIELDSET.children, []);
  }

  lemma {:induction false} LoginProper(basePath: string, requestID: string, csrf: string)
    ensures AllProper(LoginDocument(basePath, requestID, csrf), [])
      && AllApart(LoginDocument(basePath, requestID, csrf), [])
  {
    FieldsetProper();
    assert forall node | node in Fields(requestID, csrf) :: Proper(node, []) && Apart(node, []);
  }

  lemma {:induction false} LoginAt(basePath: string, requestID: string, csrf: string)
    ensures At(LoginDocument(basePath, requestID, csrf), [], InLogin(basePath, requestID, csrf))
  {
    var path, children := InLogin(basePath, requestID, csrf), Fields(requestID, csrf) + [FIELDSET];
    assert path[1..] == [path[1]] && path[1..][1..] == [];
    assert At(FIELDSET.children, [OPEN_LEGEND], []);
    assert children[..3] == Fields(requestID, csrf) && children[3] == FIELDSET;
    assert At(children, Fields(requestID, csrf), path[1..]);
  }

  lemma {:induction false} LoginDisables(basePath: string, requestID: string, csrf: string)
    ensures TreeDisabled(InLogin(basePath, requestID, csrf))
  {
    var path := InLogin(basePath, requestID, csrf);
    assert Around([], path, 1) == Around([], path[1..], 0) == [];
    assert DisabledBy([], path, 1);
  }

  // The run over it.

  lemma {:induction false} InputStep(p: Page, attributes: Attributes)
    requires Idle(p) && Top(p.scopes).inPost && !InDisabledFieldset(p.nesting)
    requires Sensitive(Attr(attributes, "name")) && Attr(attributes, "name") != ""
    requires !Duplicate(p.forms.controls, Attr(attributes, "name")) && Unsuitable("input", attributes).Pass?
    requires {"disabled", "form", "formaction", "formmethod", "formenctype"} !! attributes.Keys
    ensures Step(p, Start("input", attributes)) == Pass(p.(forms := p.forms.(controls := p.forms.controls[
      Attr(attributes, "name") := Control("input", ToLower(Attr(attributes, "type")), Attr(attributes, "value"), 0)])))
  {
    hide Sensitive, Duplicate, InDisabledFieldset, Unsuitable;
    assert OpenFieldsets(p.nesting, "input", attributes) == p.nesting;
  }

  function FormPage(basePath: string, controls: Controls): Page {
    Page(Nesting(["form"], []), [Scope(true, 0, [0], false)], NO_SELECT,
         Forms(1, 0, basePath + "/login", controls, [FormRecord("", true)], map[], []))
  }

  lemma {:induction false} FormOpens(basePath: string)
    ensures OpenForm(BLANK.scopes[0], NO_FORMS, PostForm(basePath))
         == Pass((Scope(true, 0, [0], false), FormPage(basePath, map[]).forms))
  {
    assert IsPost(PostForm(basePath));
    assert |Fold("")| == 0 && |Fold("multipart/form-data")| > 0 && |Fold("text/plain")| > 0;
    assert NO_FORMS.forms + [FormRecord("", true)] == [FormRecord("", true)];
    assert BLANK.scopes[0].forms + [0] == [0];
    assert !EqualFold("", "multipart/form-data") && !EqualFold("", "text/plain");
  }

  lemma {:induction false} FormStep(basePath: string)
    ensures Step(BLANK, Start("form", PostForm(basePath))) == Pass(FormPage(basePath, map[]))
  {
    hide OpenForm, IsPost, Fold, PostForm;
    FormOpens(basePath);
    assert BLANK.nesting.elements + ["form"] == ["form"];
    assert Replace(BLANK.scopes, Scope(true, 0, [0], false)) == [Scope(true, 0, [0], false)];
  }

  function Hiddens(requestID: string, csrf: string): Controls {
    map["authRequestID" := Control("input", "hidden", requestID, 0)]["csrf" := Control("input", "hidden", csrf, 0)]
  }

  function AllControls(requestID: string, csrf: string): Controls {
    var controls := Hiddens(requestID, csrf)["username" := Control("input", "", "", 0)];
    controls["password" := Control("input", "password", "", 0)]
  }

  lemma {:induction false} Spellings()
    ensures ToLower("hidden") == "hidden" && ToLower("password") == "password" && ToLower("") == ""
    ensures Fold("username") != Fold("password")
  {
    assert Fold("username")[0] == 'u' && Fold("password")[0] == 'p';
  }

  lemma {:induction false} HeadRuns(basePath: string, requestID: string, csrf: string)
    ensures Run(BLANK, Head(basePath, requestID, csrf))
         == Pass(FormPage(basePath, Hiddens(requestID, csrf)["username" := Control("input", "", "", 0)]))
  {
    hide Step, Unsuitable, Sensitive, Fold, ToLower;
    var h := Head(basePath, requestID, csrf);
    FormStep(basePath);
    FirstHidden(basePath, requestID);
    SecondHidden(basePath, requestID, csrf);
    UsernameField(basePath, requestID, csrf);
    assert h[..4] == h && h[..4][..3] == h[..3] && h[..3][..2] == h[..2] && h[..2][..1] == h[..1] && h[..1][..0] == [];
    assert Run(BLANK, h[..1]) == Step(BLANK, h[0]);
    assert Run(BLANK, h[..2]) == Step(FormPage(basePath, map[]), h[1]);
    assert Run(BLANK, h[..3]) == Step(Run(BLANK, h[..2]).value, h[2]);
  }

  lemma {:induction false} Suitable(attributes: Attributes)
    requires ToLower(Attr(attributes, "type")) in {"", "hidden", "password"}
    ensures Unsuitable("input", attributes).Pass?
  {
  }

  lemma {:induction false} FirstHidden(basePath: string, requestID: string)
    ensures Step(FormPage(basePath, map[]), Start("input", Hidden("authRequestID", requestID)))
         == Pass(FormPage(basePath, map["authRequestID" := Control("input", "hidden", requestID, 0)]))
  {
    hide Step, Unsuitable, Fold, ToLower;
    var attributes := Hidden("authRequestID", requestID);
    Spellings();
    Suitable(attributes);
    InputStep(FormPage(basePath, map[]), attributes);
  }

  lemma {:induction false} SecondHidden(basePath: string, requestID: string, csrf: string)
    ensures Step(FormPage(basePath, map["authRequestID" := Control("input", "hidden", requestID, 0)]),
                 Start("input", Hidden("csrf", csrf)))
         == Pass(FormPage(basePath, Hiddens(requestID, csrf)))
  {
    hide Step, Unsuitable, ToLower;
    var attributes := Hidden("csrf", csrf);
    Spellings();
    Suitable(attributes);
    assert |Fold("authRequestID")| != |Fold("csrf")|;
    InputStep(FormPage(basePath, map["authRequestID" := Control("input", "hidden", requestID, 0)]), attributes);
  }

  lemma {:induction false} UsernameField(basePath: string, requestID: string, csrf: string)
    ensures Step(FormPage(basePath, Hiddens(requestID, csrf)), Start("input", USERNAME))
         == Pass(FormPage(basePath, Hiddens(requestID, csrf)["username" := Control("input", "", "", 0)]))
  {
    hide Step, Unsuitable, ToLower;
    Spellings();
    Suitable(USERNAME);
    assert |Fold("authRequestID")| != |Fold("username")| && |Fold("csrf")| != |Fold("username")|;
    InputStep(FormPage(basePath, Hiddens(requestID, csrf)), USERNAME);
  }

  const FIRST_LEGEND := Fieldset(1, true, true, true, 2)

  /** The self-closed legend takes the end tag, and the first legend stays open. */
  lemma {:induction false} LegendStaysOpen()
    ensures Walk(Nesting(["form"], []), LEGEND) == Nesting(["form", "fieldset", "legend", "svg"], [FIRST_LEGEND])
  {
    hide Walk, Turn;
    LegendOpened();
    ForeignClosed();
    LegendEndMissed();
    WalkSplit(Nesting(["form"], []), LEGEND[..3], LEGEND[3..6]);
    WalkSplit(Nesting(["form"], []), LEGEND[..6], LEGEND[6..]);
    assert LEGEND[..3] + LEGEND[3..6] == LEGEND[..6] && LEGEND[..6] + LEGEND[6..] == LEGEND;
  }

  lemma {:induction false} LegendOpened()
    ensures Walk(Nesting(["form"], []), LEGEND[..3]) == Nesting(["form", "fieldset", "legend", "svg"], [FIRST_LEGEND])
  {
    var open := Fieldset(1, true, false, false, -1);
    Walk3(Nesting(["form"], []), LEGEND[0], LEGEND[1], LEGEND[2]);
    assert LEGEND[..3] == [LEGEND[0], LEGEND[1], LEGEND[2]];
    assert Turn(Nesting(["form"], []), LEGEND[0]) == Nesting(["form", "fieldset"], [open]);
    assert FieldsetAt([open], 1) == 0;
    assert Turn(Nesting(["form", "fieldset"], [open]), LEGEND[1])
      == Nesting(["form", "fieldset", "legend"], [FIRST_LEGEND]);
    assert Turn(Nesting(["form", "fieldset", "legend"], [FIRST_LEGEND]), LEGEND[2])
        == Nesting(["form", "fieldset", "legend", "svg"], [FIRST_LEGEND]);
  }

  lemma {:induction false} ForeignClosed()
    ensures Walk(Nesting(["form", "fieldset", "legend", "svg"], [FIRST_LEGEND]), LEGEND[3..6])
         == Nesting(["form", "fieldset", "legend", "svg", "legend"], [FIRST_LEGEND])
  {
    hide Walk;
    var n := Nesting(["form", "fieldset", "legend", "svg"], [FIRST_LEGEND]);
    var m := Nesting(["form", "fieldset", "legend", "svg", "legend", "svg"], [FIRST_LEGEND]);
    assert LEGEND[3..6] == [LEGEND[3], LEGEND[4], LEGEND[5]];
    Walk3(n, LEGEND[3], LEGEND[4], LEGEND[5]);
    assert Turn(Turn(n, LEGEND[3]), LEGEND[4]) == m;
    assert LastIndex(m.elements, "svg") == 5;
    assert m.elements[..5] == ["form", "fieldset", "legend", "svg", "legend"];
  }

  lemma {:induction false} LegendEndMissed()
    ensures Walk(Nesting(["form", "fieldset", "legend", "svg", "legend"], [FIRST_LEGEND]), LEGEND[6..])
         == Nesting(["form", "fieldset", "legend", "svg"], [FIRST_LEGEND])
  {
    var n := Nesting(["form", "fieldset", "legend", "svg", "legend"], [FIRST_LEGEND]);
    assert LEGEND[6..] == [End("legend")] && LEGEND[6..][..0] == [];
    assert LastIndex(n.elements, "legend") == 4;
    assert n.elements[..4] == ["form", "fieldset", "legend", "svg"];
    assert EndLegend([FIRST_LEGEND], 4) == [FIRST_LEGEND];
  }

  lemma {:induction false} PasswordField(p: Page, basePath: string, requestID: string, csrf: string)
    requires p == FormPage(basePath, Hiddens(requestID, csrf)["username" := Control("input", "", "", 0)]).(
      nesting := Nesting(["form", "fieldset", "legend", "svg"], [FIRST_LEGEND]))
    ensures Step(p, Start("input", PASSWORD))
         == Pass(p.(forms := p.forms.(controls := AllControls(requestID, csrf))))
  {
    hide Step, Unsuitable, ToLower;
    Spellings();
    Suitable(PASSWORD);
    assert |Fold("authRequestID")| != |Fold("password")| && |Fold("csrf")| != |Fold("password")|;
    InputStep(p, PASSWORD);
  }

  /** End tags at the end of the page leave the controls alone. */
  lemma {:induction false} EndStep(p: Page, name: string)
    requires Idle(p) && name != "template"
    ensures Step(p, End(name)).Pass?
    ensures var q := Step(p, End(name)).value; Idle(q) && q.forms == p.forms
  {
    hide CloseNesting;
    assert CloseSelect(NO_SELECT, name) == NO_SELECT;
  }

  lemma {:induction false} LoginRuns(basePath: string, requestID: string, csrf: string)
    ensures var r := Run(BLANK, TokensAll(LoginDocument(basePath, requestID, csrf)));
      r.Pass? && r.value.select == NO_SELECT && r.value.forms == FormPage(basePath, AllControls(requestID, csrf)).forms
  {
    hide Run, Step, TokensAll, Walk, Quiet;
    var head, tag, ends := Head(basePath, requestID, csrf), [Start("input", PASSWORD)], [End("fieldset"), End("form")];
    LoginTokens(basePath, requestID, csrf);
    HeadRuns(basePath, requestID, csrf);
    LegendStaysOpen();
    LegendQuiet();
    var p := Run(BLANK, head).value;
    QuietRun(p, LEGEND);
    var q := Run(p, LEGEND).value;
    PasswordField(q, basePath, requestID, csrf);
    RunSplit(BLANK, head, LEGEND);
    RunSplit(BLANK, head + LEGEND, tag);
    RunOne(q, tag[0]);
    RunSplit(BLANK, head + LEGEND + tag, ends);
    EndsRun(Step(q, tag[0]).value, "fieldset");
  }

  lemma {:induction false} PasswordUnbarred(basePath: string, requestID: string, csrf: string)
    ensures !InDisabledFieldset(Walk(BLANK.nesting, Head(basePath, requestID, csrf) + LEGEND))
  {
    hide Run, Step, Walk, Quiet;
    var head := Head(basePath, requestID, csrf);
    HeadRuns(basePath, requestID, csrf);
    assert RootsOnly(head) && NoRootInSelect(head);
    RunWalks(head);
    WalkSplit(BLANK.nesting, head, LEGEND);
    LegendStaysOpen();
  }

  lemma {:induction false} LegendQuiet()
    ensures forall token | token in LEGEND :: Quiet(token)
  {
  }

  lemma {:induction false} RunOne(p: Page, token: Token)
    requires |p.scopes| > 0
    ensures Run(p, [token]) == Step(p, token)
  {
    assert [token][..0] == [];
  }

  lemma {:induction false} EndsRun(p: Page, name: string)
    requires Idle(p) && name != "template"
    ensures var r := Run(p, [End(name), End("form")]);
      r.Pass? && r.value.select == NO_SELECT && r.value.forms == p.forms
  {
    hide Step;
    EndStep(p, name);
    EndStep(Step(p, End(name)).value, "form");
    RunOne(p, End(name));
    RunSplit(p, [End(name)], [End("form")]);
    RunOne(Step(p, End(name)).value, End("form"));
  }

  lemma {:induction false} LoginFormIsSound(basePath: string, requestID: string, csrf: string)
    ensures var forms := FormPage(basePath, AllControls(requestID, csrf)).forms;
      FormComplaint(forms, basePath, PasswordMode, requestID, csrf) == Pass(())
  {
  }

  /** `<form …><fieldset disabled><legend><svg><legend/><svg/></svg></legend><input name="password" …>`: the page is
      accepted with a password control that its tree disables, because the legend's end tag closes the self-closed
      legend and the first legend stays open. */
  lemma {:induction false} AcceptsDisabledControl(basePath: string, requestID: string, csrf: string)
    ensures var document, path := LoginDocument(basePath, requestID, csrf), InLogin(basePath, requestID, csrf);
      var raw := Head(basePath, requestID, csrf) + LEGEND + [Start("input", PASSWORD)] + [End("fieldset"), End("form")];
      && raw == TokensAll(document) && W.Walk(raw).1 == raw
      && At(document, [], path) && Prefix([], path) == Head(basePath, requestID, csrf) + LEGEND && TreeDisabled(path)
      && !RightDocument(document)
      && Validate(raw, basePath, PasswordMode, requestID, csrf) == Pass(())
  {
    hide TokensAll, Prefix, Run, TreeDisabled, At, AllProper, AllApart, FormComplaint, RightDocument, Walk,
      InDisabledFieldset;
    LoginTokens(basePath, requestID, csrf);
    LoginPrefix(basePath, requestID, csrf);
    LoginProper(basePath, requestID, csrf);
    LoginAt(basePath, requestID, csrf);
    LoginDisables(basePath, requestID, csrf);
    DocumentIsHandedOn(LoginDocument(basePath, requestID, csrf));
    LoginRuns(basePath, requestID, csrf);
    LoginFormIsSound(basePath, requestID, csrf);
    PasswordUnbarred(basePath, requestID, csrf);
    NotRight(LoginDocument(basePath, requestID, csrf), [], InLogin(basePath, requestID, csrf));
  }

  // ---- A live control that is never looked at ----

  /** What a foreign element of the name `template` holds here: another control of a name that the form has already. */
  const HIDDEN_CONTROL: seq<T.Piece> :=
    [T.Single(Start("foreignobject", NONE)), T.Single(Start("input", map["name" := "csrf"])),
     T.Single(End("foreignobject"))]

  function BeforeTemplate(basePath: string, requestID: string, csrf: string): seq<Token> {
    Head(basePath, requestID, csrf) + [Start("input", PASSWORD)] + [Start("svg", NONE)]
  }

  lemma {:induction false} HiddenTokens()
    ensures T.AllProper(HIDDEN_CONTROL)
    ensures T.Tokens(T.Template(NONE, HIDDEN_CONTROL))
         == [Start("template", NONE), Start("foreignobject", NONE), Start("input", map["name" := "csrf"]),
             End("foreignobject"), End("template")]
  {
    var h := HIDDEN_CONTROL;
    assert h[..3] == h && h[..3][..2] == h[..2] && h[..2][..1] == h[..1] && h[..1][..0] == [];
    assert T.TokensAll(h[..1]) == [Start("foreignobject", NONE)];
    assert T.TokensAll(h[..2]) == [Start("foreignobject", NONE), Start("input", map["name" := "csrf"])];
    assert T.TokensAll(h) == T.TokensAll(h[..2]) + [End("foreignobject")];
  }

  lemma {:induction false} PlainPassword(basePath: string, requestID: string, csrf: string)
    ensures var p := FormPage(basePath, Hiddens(requestID, csrf)["username" := Control("input", "", "", 0)]);
      Step(p, Start("input", PASSWORD)) == Pass(FormPage(basePath, AllControls(requestID, csrf)))
  {
    hide Step, Unsuitable, ToLower;
    Spellings();
    Suitable(PASSWORD);
    assert |Fold("authRequestID")| != |Fold("password")| && |Fold("csrf")| != |Fold("password")|;
    InputStep(FormPage(basePath, Hiddens(requestID, csrf)["username" := Control("input", "", "", 0)]), PASSWORD);
  }

  lemma {:induction false} BeforeRuns(basePath: string, requestID: string, csrf: string)
    ensures var r := Run(BLANK, BeforeTemplate(basePath, requestID, csrf));
      r.Pass? && Idle(r.value) && r.value.forms == FormPage(basePath, AllControls(requestID, csrf)).forms
  {
    hide Run, Step, Walk, Quiet;
    var head, tag, svg := Head(basePath, requestID, csrf), [Start("input", PASSWORD)], [Start("svg", NONE)];
    HeadRuns(basePath, requestID, csrf);
    PlainPassword(basePath, requestID, csrf);
    RunSplit(BLANK, head, tag);
    RunSplit(BLANK, head + tag, svg);
    RunOne(Run(BLANK, head).value, tag[0]);
    SvgQuiet();
    QuietRun(FormPage(basePath, AllControls(requestID, csrf)), svg);
  }

  lemma {:induction false} SvgQuiet()
    ensures forall token | token in [Start("svg", NONE)] :: Quiet(token)
  {
  }

  lemma {:induction false} WithoutTemplatePasses(basePath: string, requestID: string, csrf: string)
    ensures Validate(BeforeTemplate(basePath, requestID, csrf) + [End("svg"), End("form")],
                     basePath, PasswordMode, requestID, csrf) == Pass(())
  {
    hide Run, FormComplaint;
    var before := BeforeTemplate(basePath, requestID, csrf);
    BeforeRuns(basePath, requestID, csrf);
    RunSplit(BLANK, before, [End("svg"), End("form")]);
    EndsRun(Run(BLANK, before).value, "svg");
    LoginFormIsSound(basePath, requestID, csrf);
  }

  /** The walker knows that the `template` is an SVG element and that HTML goes on in it. */
  lemma {:induction false} TemplateIsForeign(basePath: string, requestID: string, csrf: string)
    ensures var inner := [Start("template", NONE), Start("foreignobject", NONE)];
      W.Walk(BeforeTemplate(basePath, requestID, csrf) + inner).0
      == [W.Frame("svg", W.SVG, false), W.Frame("template", W.SVG, false), W.Frame("foreignobject", W.SVG, true)]
  {
    hide WalkOn, W.Walk;
    var plain := Head(basePath, requestID, csrf) + [Start("input", PASSWORD)];
    var rest := [Start("svg", NONE)] + [Start("template", NONE), Start("foreignobject", NONE)];
    W.SlashNeedsForeignRoot(plain);
    WalkOnIsWalk(plain);
    WalkOnSplit([], plain, rest);
    WalkOnIsWalk(plain + rest);
    assert BeforeTemplate(basePath, requestID, csrf) + [Start("template", NONE), Start("foreignobject", NONE)]
        == plain + rest;
    RestWalked();
    assert rest == [Start("svg", NONE), Start("template", NONE), Start("foreignobject", NONE)];
  }

  lemma {:induction false} RestWalked()
    ensures WalkOn([], [Start("svg", NONE), Start("template", NONE), Start("foreignobject", NONE)]).0
         == [W.Frame("svg", W.SVG, false), W.Frame("template", W.SVG, false), W.Frame("foreignobject", W.SVG, true)]
  {
    hide WalkOn;
    var a, b, c := Start("svg", NONE), Start("template", NONE), Start("foreignobject", NONE);
    var svg := [W.Frame("svg", W.SVG, false)];
    var template := svg + [W.Frame("template", W.SVG, false)];
    assert W.Next([], a).0 == svg && W.Next(svg, b).0 == template;
    assert W.Next(template, c).0 == template + [W.Frame("foreignobject", W.SVG, true)];
    WalkThree([], a, b, c);
  }

  lemma {:induction false} WalkThree(stack: W.Stack, a: Token, b: Token, c: Token)
    ensures WalkOn(stack, [a, b, c]).0 == W.Next(W.Next(W.Next(stack, a).0, b).0, c).0
  {
    hide WalkOn, W.Next;
    var first := W.Next(stack, a).0;
    WalkOnOne(stack, a);
    WalkOnOne(first, b);
    WalkOnOne(W.Next(first, b).0, c);
    WalkOnSplit(stack, [a], [b]);
    WalkOnSplit(stack, [a, b], [c]);
    assert [a] + [b] == [a, b] && [a, b] + [c] == [a, b, c];
  }

  /** `<form …>… <svg><template><foreignObject><input name="csrf">`: an SVG `template` is an ordinary element, and
      the second control of that name belongs to the form; but the page is accepted, because the checker takes every
      `template` for an inert one. */
  lemma {:induction false} IgnoresForeignTemplate(basePath: string, requestID: string, csrf: string)
    ensures var before := BeforeTemplate(basePath, requestID, csrf);
      var raw := before + [Start("template", NONE), Start("foreignobject", NONE), Start("input", map["name" := "csrf"]),
                           End("foreignobject"), End("template")] + [End("svg"), End("form")];
      && Validate(raw, basePath, PasswordMode, requestID, csrf) == Pass(())
      && W.Walk(before + [Start("template", NONE), Start("foreignobject", NONE)]).0
         == [W.Frame("svg", W.SVG, false), W.Frame("template", W.SVG, false), W.Frame("foreignobject", W.SVG, true)]
  {
    hide Validate, Run, BeforeTemplate, W.Walk;
    HiddenTokens();
    BeforeRuns(basePath, requestID, csrf);
    NoShadow();
    hide Shadow, T.Tokens, T.AllProper;
    Erasure.InertTemplateErased(BeforeTemplate(basePath, requestID, csrf), NONE, HIDDEN_CONTROL,
                                [End("svg"), End("form")], basePath, PasswordMode, requestID, csrf);
    WithoutTemplatePasses(basePath, requestID, csrf);
    TemplateIsForeign(basePath, requestID, csrf);
  }

  lemma {:induction false} NoShadow()
    ensures !Shadow(NONE)
  {
    assert |ToLower("")| == 0;
  }
}
