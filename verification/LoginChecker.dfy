/** The loops of `validateLoginHTML`, proved to compute the fold in LoginPage. */
module LoginChecker {
  import opened Markup
  import opened LoginPage

  method FindLast(elements: seq<string>, name: string) returns (index: int)
    ensures index == LastIndex(elements, name)
  {
    index := |elements| - 1;
    while index >= 0 && elements[index] != name
      invariant -1 <= index < |elements|
      invariant forall k | index < k < |elements| :: elements[k] != name
    {
      index := index - 1;
    }
  }

  method OpenFirstLegend(fieldsets: seq<Fieldset>, depth: int, legendDepth: nat) returns (r: seq<Fieldset>)
    ensures r == BeginLegend(fieldsets, depth, legendDepth)
  {
    r := fieldsets;
    var index := |r| - 1;
    while index >= 0
      invariant -1 <= index < |r| && r == fieldsets
      invariant forall k | index < k < |r| :: r[k].depth != depth
    {
      if r[index].depth == depth {
        if !r[index].firstLegendSeen {
          r := r[index := r[index].(firstLegendSeen := true, firstLegendOpen := true, legendDepth := legendDepth)];
        }
        assert FieldsetAt(fieldsets, depth) == index;
        return;
      }
      index := index - 1;
    }
  }

  method CloseFirstLegend(fieldsets: seq<Fieldset>, depth: int) returns (r: seq<Fieldset>)
    ensures r == EndLegend(fieldsets, depth)
  {
    r := fieldsets;
    var index := |r| - 1;
    while index >= 0
      invariant -1 <= index < |r| && r == fieldsets
      invariant forall k | index < k < |r| :: !OpenLegendAt(r[k], depth)
    {
      if r[index].firstLegendOpen && r[index].legendDepth == depth {
        r := r[index := r[index].(firstLegendOpen := false)];
        assert LegendOwner(fieldsets, depth) == index;
        return;
      }
      index := index - 1;
    }
  }

  method CloseElement(n: Nesting, name: string) returns (r: Nesting)
    ensures r == CloseNesting(n, name)
  {
    var open := FindLast(n.elements, name);
    if open < 0 { return n; }
    var fieldsets := n.fieldsets;
    if name == "legend" {
      fieldsets := CloseFirstLegend(fieldsets, open);
    }
    ghost var all := fieldsets;
    while |fieldsets| > 0 && fieldsets[|fieldsets| - 1].depth >= open
      invariant PopFieldsets(fieldsets, open) == PopFieldsets(all, open)
      decreases |fieldsets|
    {
      fieldsets := fieldsets[..|fieldsets| - 1];
    }
    r := Nesting(n.elements[..open], fieldsets);
  }

  method DisabledByFieldset(n: Nesting) returns (disabled: bool)
    ensures disabled == InDisabledFieldset(n)
  {
    for i := 0 to |n.fieldsets|
      invariant forall k | 0 <= k < i :: !(n.fieldsets[k].disabled && !n.fieldsets[k].firstLegendOpen)
    {
      if n.fieldsets[i].disabled && !n.fieldsets[i].firstLegendOpen {
        assert n.fieldsets[i] in n.fieldsets;
        return true;
      }
    }
    disabled := false;
  }

  method HasDuplicate(controls: Controls, controlName: string) returns (found: bool)
    ensures found == Duplicate(controls, controlName)
  {
    var pending := controls.Keys;
    while pending != {}
      invariant pending <= controls.Keys
      invariant forall existing | existing in controls && existing !in pending :: !EqualFold(existing, controlName)
    {
      var existing :| existing in pending;
      if EqualFold(existing, controlName) { return true; }
      pending := pending - {existing};
    }
    found := false;
  }

  method CheckControl(n: Nesting, scope: Scope, controls: Controls, name: string, attributes: Attributes)
    returns (r: Outcome<(), Complaint>)
    ensures r == ControlComplaint(n, scope, controls, name, attributes)
  {
    var controlName := Attr(attributes, "name");
    if !Sensitive(controlName) { return Pass(()); }
    var disabled := DisabledByFieldset(n);
    if "disabled" in attributes || disabled { return Fail(DisabledControl); }
    if "form" in attributes { return Fail(ReassociatedControl); }
    if !scope.inPost || controlName == "" { return Pass(()); }
    var duplicate := HasDuplicate(controls, controlName);
    if duplicate { return Fail(DuplicateControl); }
    r := Unsuitable(name, attributes);
  }

  method CheckOverrides(f: Forms) returns (r: Outcome<(), Complaint>)
    ensures r == OverrideComplaint(f, f.overrides)
  {
    r := Pass(());
    for i := 0 to |f.overrides|
      invariant r == Pass(()) == OverrideComplaint(f, f.overrides[..i])
    {
      var o := f.overrides[i];
      assert f.overrides[..i + 1][..i] == f.overrides[..i];
      if Overrides(f, o) {
        r := if o.action then Fail(OverridesAction)
             else if o.method_ then Fail(OverridesMethod) else Fail(OverridesEncoding);
        OverrideStays(f, f.overrides, i + 1);
        return;
      }
    }
    assert f.overrides[..|f.overrides|] == f.overrides;
  }

  lemma {:induction false} OverrideStays(f: Forms, overrides: seq<Override>, i: nat)
    requires i <= |overrides| && OverrideComplaint(f, overrides[..i]).Fail?
    ensures OverrideComplaint(f, overrides) == OverrideComplaint(f, overrides[..i])
    decreases |overrides|
  {
    if i == |overrides| {
      assert overrides[..i] == overrides;
    } else {
      assert overrides[..|overrides| - 1][..i] == overrides[..i];
      OverrideStays(f, overrides[..|overrides| - 1], i);
    }
  }

  method CheckHidden(controls: Controls, requestID: string, csrf: string) returns (r: Outcome<(), Complaint>)
    ensures var first, second :=
      HiddenComplaint(controls, "authRequestID", requestID), HiddenComplaint(controls, "csrf", csrf);
      r == if first.Fail? then first else second
  {
    var hidden := [("authRequestID", requestID), ("csrf", csrf)];
    r := Pass(());
    for i := 0 to |hidden|
      invariant r == Pass(())
      invariant forall k | 0 <= k < i :: HiddenComplaint(controls, hidden[k].0, hidden[k].1) == Pass(())
    {
      assert hidden[0] == ("authRequestID", requestID) && hidden[1] == ("csrf", csrf);
      var control := ControlNamed(controls, hidden[i].0);
      if control.tag != "input" || control.kind != "hidden" { return Fail(MissingHidden); }
      if control.value != hidden[i].1 { return Fail(WrongHidden); }
    }
    assert hidden[0] == ("authRequestID", requestID) && hidden[1] == ("csrf", csrf);
  }

  method CheckOptions(controls: Controls) returns (lacking: bool)
    ensures lacking == exists name | name in controls :: LacksOption(controls, name)
  {
    var pending := controls.Keys;
    while pending != {}
      invariant pending <= controls.Keys
      invariant forall name | name in controls && name !in pending :: !LacksOption(controls, name)
    {
      var name :| name in pending;
      if LacksOption(controls, name) { return true; }
      pending := pending - {name};
    }
    lacking := false;
  }

  method OpenElement(p: Page, name: string, attributes: Attributes) returns (r: Outcome<Page, Complaint>)
    requires |p.scopes| > 0
    ensures r == OpenTag(p, name, attributes)
  {
    var scope, nesting, forms := Top(p.scopes), p.nesting, p.forms;
    var depth := |nesting.elements|;
    if name == "legend" && depth > 0 && nesting.elements[depth - 1] == "fieldset" {
      var fieldsets := OpenFirstLegend(nesting.fieldsets, depth - 1, depth);
      nesting := nesting.(fieldsets := fieldsets);
    }
    if name == "fieldset" {
      var fieldset := Fieldset(depth, "disabled" in attributes, false, false, -1);
      nesting := nesting.(fieldsets := nesting.fieldsets + [fieldset]);
    }
    var select := OpenSelect(p.select, name, attributes);
    if select.Fail? { return Fail(select.error); }
    forms := forms.(controls := OpenControls(p.select, forms.controls, name));
    if name == "form" {
      var form := OpenForm(scope, forms, attributes);
      if form.Fail? { return Fail(form.error); }
      return Pass(Page(Push(nesting, name), Replace(p.scopes, form.value.0), select.value, form.value.1));
    }
    if IsControl(name) {
      var complaint := CheckControl(nesting, scope, forms.controls, name, attributes);
      if complaint.Fail? { return Fail(complaint.error); }
      return Pass(Page(Push(nesting, name), p.scopes, TrackSelect(scope, select.value, name, attributes),
                       RecordControl(scope, forms, name, attributes)));
    }
    r := Pass(Page(Push(nesting, name), p.scopes, select.value, forms));
  }

  method ValidateLoginHTML(tokens: seq<Token>, basePath: string, mode: Mode, requestID: string, csrf: string)
    returns (r: Outcome<(), Complaint>)
    ensures r == Validate(tokens, basePath, mode, requestID, csrf)
  {
    hide Step, OpenTag, CloseTag, Run, OverrideComplaint, HiddenComplaint, ModeComplaint;
    var page := BLANK;
    RunStart(tokens);
    for i := 0 to |tokens|
      invariant |page.scopes| > 0 && Run(BLANK, tokens[..i]) == Pass(page)
    {
      RunNext(tokens, i);
      var next := Take(page, tokens[i]);
      if next.Fail? {
        RunFails(BLANK, tokens, i + 1);
        return Fail(next.error);
      }
      page := next.value;
    }
    assert tokens[..|tokens|] == tokens;
    var forms := page.forms.(controls := CountOption(page.select, page.forms.controls));
    var overriding := CheckOverrides(forms);
    if overriding.Fail? { return overriding; }
    if forms.postForms != 1 { return Fail(PostFormCount); }
    if forms.action != basePath + "/login" { return Fail(WrongAction); }
    var hidden := CheckHidden(forms.controls, requestID, csrf);
    if hidden.Fail? { return hidden; }
    var moded := ModeComplaint(forms.controls, mode);
    if moded.Fail? { return moded; }
    var lacking := CheckOptions(forms.controls);
    r := if lacking then Fail(NoOption) else Pass(());
  }

  /** One turn of the main loop. */
  method Take(p: Page, token: Token) returns (r: Outcome<Page, Complaint>)
    requires |p.scopes| > 0
    ensures r == Step(p, token)
  {
    match token
    case Other => r := Pass(p);
    case Text(text) =>
      r := Pass(p);
      if p.select.eligible && !p.select.script && !Top(p.scopes).inert {
        r := Pass(p.(select := p.select.(text := p.select.text + text)));
      }
    case End(name) =>
      if name == "template" { return Pass(CloseTemplate(p)); }
      if Top(p.scopes).inert { return Pass(p); }
      var nesting := CloseElement(p.nesting, name);
      r := Pass(Page(nesting, Replace(p.scopes, CloseForm(Top(p.scopes), name)), CloseSelect(p.select, name),
                     p.forms.(controls := CloseControls(p.select, p.forms.controls, name))));
    case Start(name, attributes) =>
      if name == "template" { return Pass(OpenTemplate(p, attributes)); }
      if Top(p.scopes).inert { return Pass(p); }
      r := OpenElement(p, name, attributes);
    case SelfClosing(name, attributes) =>
      if name == "template" || Top(p.scopes).inert { return Pass(p); }
      r := OpenElement(p, name, attributes);
  }

  lemma RunStart(tokens: seq<Token>)
    ensures Run(BLANK, tokens[..0]) == Pass(BLANK)
  {
  }

  lemma RunNext(tokens: seq<Token>, i: nat)
    requires i < |tokens|
    ensures var before := Run(BLANK, tokens[..i]);
      before.Pass? ==> Run(BLANK, tokens[..i + 1]) == Step(before.value, tokens[i])
  {
    assert tokens[..i + 1][..i] == tokens[..i];
  }

  lemma {:induction false} RunFails(p: Page, tokens: seq<Token>, i: nat)
    requires |p.scopes| > 0 && i <= |tokens| && Run(p, tokens[..i]).Fail?
    ensures Run(p, tokens) == Run(p, tokens[..i])
    decreases |tokens|
  {
    if i == |tokens| {
      assert tokens[..i] == tokens;
    } else {
      assert tokens[..|tokens| - 1][..i] == tokens[..i];
      RunFails(p, tokens[..|tokens| - 1], i);
    }
  }
}
