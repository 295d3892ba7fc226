/** `validateLoginHTML` as a fold over tokens: the state it keeps, one function for each kind of step, and the
    checks after the last token. */
module LoginPage {
  import Realm
  import opened Markup

  // ---- Open elements and fieldsets ----

  datatype Fieldset = Fieldset(depth: nat, disabled: bool, firstLegendSeen: bool, firstLegendOpen: bool,
                               legendDepth: int)

  datatype Nesting = Nesting(elements: seq<string>, fieldsets: seq<Fieldset>)

  /** The innermost open element of that name, or -1. */
  function LastIndex(elements: seq<string>, name: string): (index: int)
    ensures -1 <= index < |elements|
    ensures index >= 0 ==> elements[index] == name
    ensures forall k | index < k < |elements| :: elements[k] != name
  {
    if elements == [] then -1
    else if elements[|elements| - 1] == name then |elements| - 1
    else LastIndex(elements[..|elements| - 1], name)
  }

  function FieldsetAt(fieldsets: seq<Fieldset>, depth: int): (index: int)
    ensures -1 <= index < |fieldsets|
    ensures index >= 0 ==> fieldsets[index].depth == depth
    ensures forall k | index < k < |fieldsets| :: fieldsets[k].depth != depth
  {
    if fieldsets == [] then -1
    else if fieldsets[|fieldsets| - 1].depth == depth then |fieldsets| - 1
    else FieldsetAt(fieldsets[..|fieldsets| - 1], depth)
  }

  predicate OpenLegendAt(fieldset: Fieldset, depth: int) {
    fieldset.firstLegendOpen && fieldset.legendDepth == depth
  }

  function LegendOwner(fieldsets: seq<Fieldset>, depth: int): (index: int)
    ensures -1 <= index < |fieldsets|
    ensures index >= 0 ==> OpenLegendAt(fieldsets[index], depth)
    ensures forall k | index < k < |fieldsets| :: !OpenLegendAt(fieldsets[k], depth)
  {
    if fieldsets == [] then -1
    else if OpenLegendAt(fieldsets[|fieldsets| - 1], depth) then |fieldsets| - 1
    else LegendOwner(fieldsets[..|fieldsets| - 1], depth)
  }

  function BeginLegend(fieldsets: seq<Fieldset>, depth: int, legendDepth: nat): seq<Fieldset> {
    var index := FieldsetAt(fieldsets, depth);
    if index < 0 || fieldsets[index].firstLegendSeen then fieldsets
    else
      var first := fieldsets[index].(firstLegendSeen := true, firstLegendOpen := true, legendDepth := legendDepth);
      fieldsets[index := first]
  }

  function EndLegend(fieldsets: seq<Fieldset>, depth: int): seq<Fieldset> {
    var index := LegendOwner(fieldsets, depth);
    if index < 0 then fieldsets else fieldsets[index := fieldsets[index].(firstLegendOpen := false)]
  }

  function PopFieldsets(fieldsets: seq<Fieldset>, depth: int): seq<Fieldset> {
    if fieldsets != [] && fieldsets[|fieldsets| - 1].depth >= depth
    then PopFieldsets(fieldsets[..|fieldsets| - 1], depth)
    else fieldsets
  }

  function CloseNesting(n: Nesting, name: string): Nesting {
    var open := LastIndex(n.elements, name);
    if open < 0 then n
    else
      var fieldsets := if name == "legend" then EndLegend(n.fieldsets, open) else n.fieldsets;
      Nesting(n.elements[..open], PopFieldsets(fieldsets, open))
  }

  /** The legend and fieldset bookkeeping that comes before the other checks of a start tag. */
  function OpenFieldsets(n: Nesting, name: string, attributes: Attributes): Nesting {
    var depth := |n.elements|;
    if name == "legend" && depth > 0 && n.elements[depth - 1] == "fieldset"
    then n.(fieldsets := BeginLegend(n.fieldsets, depth - 1, depth))
    else if name == "fieldset"
    then n.(fieldsets := n.fieldsets + [Fieldset(depth, "disabled" in attributes, false, false, -1)])
    else n
  }

  function Push(n: Nesting, name: string): Nesting {
    if IsVoid(name) then n else n.(elements := n.elements + [name])
  }

  predicate InDisabledFieldset(n: Nesting) {
    exists f | f in n.fieldsets :: f.disabled && !f.firstLegendOpen
  }

  // ---- The tracked select ----

  datatype Control = Control(tag: string, kind: string, value: string, enabledOptions: nat)

  /** What the map gives for a missing name. */
  const NO_CONTROL := Control("", "", "", 0)

  type Controls = map<string, Control>

  datatype Select = Select(
    control: string, groupDisabled: bool, option: string, eligible: bool, hasValue: bool, script: bool,
    value: string, text: string)

  const NO_SELECT := Select("", false, "", false, false, false, "", "")

  function ControlNamed(controls: Controls, name: string): Control {
    if name in controls then controls[name] else NO_CONTROL
  }

  /** `strings.TrimSpace` leaves something. */
  predicate NonBlank(text: string) {
    exists c | c in text :: !Realm.IsSpace(c)
  }

  predicate OptionCounts(select: Select) {
    select.eligible && if select.hasValue then select.value != "" else NonBlank(select.text)
  }

  function CountOption(select: Select, controls: Controls): Controls {
    if !OptionCounts(select) then controls
    else
      var control := ControlNamed(controls, select.option);
      controls[select.option := control.(enabledOptions := control.enabledOptions + 1)]
  }

  function ForgetOption(select: Select): Select {
    select.(option := "", value := "", eligible := false, hasValue := false, script := false, text := "")
  }

  function CloseSelect(select: Select, name: string): Select {
    var s := if name == "script" then select.(script := false) else select;
    var t := if name in {"option", "optgroup", "select"} then ForgetOption(s) else s;
    if name == "select" then t.(control := "", groupDisabled := false)
    else if name == "optgroup" then t.(groupDisabled := false)
    else t
  }

  function CloseControls(select: Select, controls: Controls, name: string): Controls {
    if name in {"option", "optgroup", "select"} then CountOption(select, controls) else controls
  }

  function OpenSelect(select: Select, name: string, attributes: Attributes): Outcome<Select, Complaint> {
    if select.control == "" then Pass(select)
    else if name in {"select", "input", "textarea"} then Fail(ControlInSelect)
    else if name == "script" then Pass(select.(script := select.option != ""))
    else if name == "optgroup" then Pass(ForgetOption(select).(groupDisabled := "disabled" in attributes))
    else if name == "option" then
      Pass(ForgetOption(select).(
        option := select.control, eligible := "disabled" !in attributes && !select.groupDisabled,
        value := Attr(attributes, "value"), hasValue := "value" in attributes))
    else Pass(select)
  }

  function OpenControls(select: Select, controls: Controls, name: string): Controls {
    if select.control != "" && name in {"optgroup", "option"} then CountOption(select, controls) else controls
  }

  // ---- Forms and controls ----

  datatype Complaint =
    | NestedForms | FormEncoding | SecondPostForm | ControlInSelect
    | DisabledControl | ReassociatedControl | DuplicateControl
    | NeedsSubmitter | NotScalar | NotChecked | MultipleSelect
    | OverridesAction | OverridesMethod | OverridesEncoding
    | PostFormCount | WrongAction | MissingHidden | WrongHidden
    | MissingUsername | MissingPassword | MissingIdentity | NoOption

  datatype FormRecord = FormRecord(id: string, post: bool)

  datatype Override = Override(
    tag: string, kind: string, formID: string, owner: int, action: bool, method_: bool, encoding: bool)

  datatype Scope = Scope(inPost: bool, postForm: int, forms: seq<nat>, inert: bool)

  datatype Forms = Forms(
    postForms: nat, postForm: int, action: string, controls: Controls, forms: seq<FormRecord>,
    ids: map<string, nat>, overrides: seq<Override>)

  const NO_FORMS := Forms(0, -1, "", map[], [], map[], [])

  function CloseForm(scope: Scope, name: string): Scope {
    var s := if name == "form" && |scope.forms| > 0
             then scope.(forms := scope.forms[..|scope.forms| - 1], postForm := -1, inPost := false) else scope;
    if s.postForm >= 0 && |s.forms| == 0 then s.(postForm := -1, inPost := false) else s
  }

  predicate IsPost(attributes: Attributes) {
    EqualFold(Attr(attributes, "method"), "POST")
  }

  function OpenForm(scope: Scope, f: Forms, attributes: Attributes): Outcome<(Scope, Forms), Complaint> {
    var enctype := Attr(attributes, "enctype");
    var index, id := |f.forms|, Attr(attributes, "id");
    var g := f.(forms := f.forms + [FormRecord(id, IsPost(attributes))],
                ids := if id != "" && id !in f.ids then f.ids[id := index] else f.ids);
    var entered := scope.(forms := scope.forms + [index]);
    if |scope.forms| > 0 then Fail(NestedForms)
    else if EqualFold(enctype, "multipart/form-data") || EqualFold(enctype, "text/plain") then Fail(FormEncoding)
    else if !IsPost(attributes) then Pass((entered, g))
    else if f.postForms + 1 > 1 then Fail(SecondPostForm)
    else Pass((entered.(inPost := true, postForm := index),
               g.(postForms := f.postForms + 1, postForm := index,
                  action := Attr(attributes, "action"), controls := map[])))
  }

  predicate IsControl(name: string) {
    name in {"input", "select", "textarea", "button"}
  }

  predicate Sensitive(controlName: string) {
    EqualFold(controlName, "authRequestID") || EqualFold(controlName, "csrf") || EqualFold(controlName, "identity") ||
    EqualFold(controlName, "username") || EqualFold(controlName, "password")
  }

  function Owner(scope: Scope): int {
    if |scope.forms| > 0 then scope.forms[|scope.forms| - 1] else -1
  }

  function Overriding(overrides: seq<Override>, owner: int, name: string, attributes: Attributes): seq<Override> {
    var action, method_, encoding :=
      "formaction" in attributes, "formmethod" in attributes, "formenctype" in attributes;
    if name in {"input", "button"} && (action || method_ || encoding)
    then overrides + [Override(name, ToLower(Attr(attributes, "type")), Attr(attributes, "form"),
                               owner, action, method_, encoding)]
    else overrides
  }

  /** Why a sensitive control cannot be part of the login submission. */
  function Unsuitable(name: string, attributes: Attributes): Outcome<(), Complaint> {
    var kind := ToLower(Attr(attributes, "type"));
    if name == "button" then Fail(NeedsSubmitter)
    else if name == "input" && kind in {"button", "reset", "submit", "image", "file", "checkbox"} then Fail(NotScalar)
    else if name == "input" && kind == "radio" && "checked" !in attributes then Fail(NotChecked)
    else if name == "select" && "multiple" in attributes then Fail(MultipleSelect)
    else Pass(())
  }

  predicate Duplicate(controls: Controls, controlName: string) {
    exists existing | existing in controls :: EqualFold(existing, controlName)
  }

  /** The complaint about a control, if any; `n` is the nesting around it. */
  function ControlComplaint(n: Nesting, scope: Scope, controls: Controls, name: string,
                            attributes: Attributes): Outcome<(), Complaint> {
    var controlName := Attr(attributes, "name");
    if !Sensitive(controlName) then Pass(())
    else if "disabled" in attributes || InDisabledFieldset(n) then Fail(DisabledControl)
    else if "form" in attributes then Fail(ReassociatedControl)
    else if !scope.inPost || controlName == "" then Pass(())
    else if Duplicate(controls, controlName) then Fail(DuplicateControl)
    else Unsuitable(name, attributes)
  }

  function RecordControl(scope: Scope, f: Forms, name: string, attributes: Attributes): Forms {
    var controlName := Attr(attributes, "name");
    var g := f.(overrides := Overriding(f.overrides, Owner(scope), name, attributes));
    if !scope.inPost || controlName == "" then g
    else
      var control := Control(name, ToLower(Attr(attributes, "type")), Attr(attributes, "value"), 0);
      g.(controls := g.controls[controlName := control])
  }

  function TrackSelect(scope: Scope, select: Select, name: string, attributes: Attributes): Select {
    var controlName := Attr(attributes, "name");
    if scope.inPost && controlName != "" && name == "select" && Sensitive(controlName)
    then select.(control := controlName, groupDisabled := false) else select
  }

  // ---- One token ----

  datatype Page = Page(nesting: Nesting, scopes: seq<Scope>, select: Select, forms: Forms)

  const BLANK := Page(Nesting([], []), [Scope(false, -1, [], false)], NO_SELECT, NO_FORMS)

  function Top(scopes: seq<Scope>): Scope
    requires |scopes| > 0
  {
    scopes[|scopes| - 1]
  }

  function Replace(scopes: seq<Scope>, scope: Scope): (r: seq<Scope>)
    requires |scopes| > 0
    ensures |r| == |scopes| && Top(r) == scope && r[..|r| - 1] == scopes[..|scopes| - 1]
  {
    scopes[..|scopes| - 1] + [scope]
  }

  function OpenTemplate(p: Page, attributes: Attributes): (q: Page)
    requires |p.scopes| > 0
    ensures |q.scopes| == |p.scopes| + 1
  {
    var inert := Top(p.scopes).inert || p.select.control != "" || !Shadow(attributes);
    p.(scopes := p.scopes + [Scope(false, -1, [], inert)])
  }

  function CloseTemplate(p: Page): (q: Page)
    requires |p.scopes| > 0
    ensures |q.scopes| > 0
  {
    if |p.scopes| > 1 then p.(scopes := p.scopes[..|p.scopes| - 1]) else p
  }

  function CloseTag(p: Page, name: string): (q: Page)
    requires |p.scopes| > 0
    ensures |q.scopes| == |p.scopes|
  {
    Page(CloseNesting(p.nesting, name),
         Replace(p.scopes, CloseForm(Top(p.scopes), name)),
         CloseSelect(p.select, name),
         p.forms.(controls := CloseControls(p.select, p.forms.controls, name)))
  }

  function OpenTag(p: Page, name: string, attributes: Attributes): (r: Outcome<Page, Complaint>)
    requires |p.scopes| > 0
    ensures r.Pass? ==> |r.value.scopes| == |p.scopes|
  {
    var scope, nesting := Top(p.scopes), OpenFieldsets(p.nesting, name, attributes);
    var forms := p.forms.(controls := OpenControls(p.select, p.forms.controls, name));
    var select := OpenSelect(p.select, name, attributes);
    if select.Fail? then Fail(select.error)
    else if name == "form" then
      var form := OpenForm(scope, forms, attributes);
      if form.Fail? then Fail(form.error)
      else Pass(Page(Push(nesting, name), Replace(p.scopes, form.value.0), select.value, form.value.1))
    else if IsControl(name) then
      var complaint := ControlComplaint(nesting, scope, forms.controls, name, attributes);
      if complaint.Fail? then Fail(complaint.error)
      else Pass(Page(Push(nesting, name), p.scopes, TrackSelect(scope, select.value, name, attributes),
                     RecordControl(scope, forms, name, attributes)))
    else Pass(Page(Push(nesting, name), p.scopes, select.value, forms))
  }

  function Step(p: Page, token: Token): (r: Outcome<Page, Complaint>)
    requires |p.scopes| > 0
    ensures r.Pass? ==> |r.value.scopes| > 0
  {
    match token
    case Other => Pass(p)
    case Text(text) =>
      if p.select.eligible && !p.select.script && !Top(p.scopes).inert
      then Pass(p.(select := p.select.(text := p.select.text + text))) else Pass(p)
    case End(name) =>
      if name == "template" then Pass(CloseTemplate(p))
      else if Top(p.scopes).inert then Pass(p)
      else Pass(CloseTag(p, name))
    case Start(name, attributes) =>
      if name == "template" then Pass(OpenTemplate(p, attributes))
      else if Top(p.scopes).inert then Pass(p)
      else OpenTag(p, name, attributes)
    case SelfClosing(name, attributes) =>
      if name == "template" || Top(p.scopes).inert then Pass(p) else OpenTag(p, name, attributes)
  }

  function Run(p: Page, tokens: seq<Token>): (r: Outcome<Page, Complaint>)
    requires |p.scopes| > 0
    ensures r.Pass? ==> |r.value.scopes| > 0
  {
    if tokens == [] then Pass(p)
    else
      var before := Run(p, tokens[..|tokens| - 1]);
      if before.Fail? then before else Step(before.value, tokens[|tokens| - 1])
  }

  lemma {:induction false} RunSplit(p: Page, a: seq<Token>, b: seq<Token>)
    requires |p.scopes| > 0
    ensures var r := Run(p, a); Run(p, a + b) == if r.Fail? then r else Run(r.value, b)
    decreases |b|
  {
    if b == [] {
      assert a + b == a;
    } else {
      assert (a + b)[..|a + b| - 1] == a + b[..|b| - 1];
      RunSplit(p, a, b[..|b| - 1]);
    }
  }

  // ---- After the last token ----

  datatype Mode = PasswordMode | SelectMode

  predicate Submitter(o: Override) {
    || (o.tag == "button" && o.kind != "button" && o.kind != "reset")
    || (o.tag == "input" && o.kind in {"submit", "image"})
  }

  predicate Overrides(f: Forms, o: Override) {
    && (o.formID != "" ==> o.formID in f.ids)
    && Submitter(o)
    && (if o.formID != "" then f.ids[o.formID] else o.owner) == f.postForm
  }

  function OverrideComplaint(f: Forms, overrides: seq<Override>): Outcome<(), Complaint> {
    if overrides == [] then Pass(())
    else
      var before, o := OverrideComplaint(f, overrides[..|overrides| - 1]), overrides[|overrides| - 1];
      if before.Fail? || !Overrides(f, o) then before
      else if o.action then Fail(OverridesAction)
      else if o.method_ then Fail(OverridesMethod)
      else Fail(OverridesEncoding)
  }

  function HiddenComplaint(controls: Controls, name: string, value: string): Outcome<(), Complaint> {
    var control := ControlNamed(controls, name);
    if control.tag != "input" || control.kind != "hidden" then Fail(MissingHidden)
    else if control.value != value then Fail(WrongHidden)
    else Pass(())
  }

  predicate LacksOption(controls: Controls, name: string) {
    && name in controls && controls[name].tag == "select" && controls[name].enabledOptions == 0
    && name in {"username", "identity"}
  }

  function ModeComplaint(controls: Controls, mode: Mode): Outcome<(), Complaint> {
    if mode.SelectMode? then if "identity" !in controls then Fail(MissingIdentity) else Pass(())
    else if "username" !in controls then Fail(MissingUsername)
    else
      var control := ControlNamed(controls, "password");
      if control.tag != "input" || control.kind != "password" then Fail(MissingPassword) else Pass(())
  }

  function FormComplaint(f: Forms, basePath: string, mode: Mode, requestID: string, csrf: string): Outcome<(),
                         Complaint> {
    var overriding := OverrideComplaint(f, f.overrides);
    var request, token :=
      HiddenComplaint(f.controls, "authRequestID", requestID), HiddenComplaint(f.controls, "csrf", csrf);
    var moded := ModeComplaint(f.controls, mode);
    if overriding.Fail? then overriding
    else if f.postForms != 1 then Fail(PostFormCount)
    else if f.action != basePath + "/login" then Fail(WrongAction)
    else if request.Fail? then request
    else if token.Fail? then token
    else if moded.Fail? then moded
    else if exists name | name in f.controls :: LacksOption(f.controls, name) then Fail(NoOption)
    else Pass(())
  }

  function Validate(tokens: seq<Token>, basePath: string, mode: Mode, requestID: string,
                    csrf: string): Outcome<(), Complaint> {
    var last := Run(BLANK, tokens);
    if last.Fail? then Fail(last.error)
    else
      var p := last.value;
      FormComplaint(p.forms.(controls := CountOption(p.select, p.forms.controls)), basePath, mode, requestID, csrf)
  }
}
