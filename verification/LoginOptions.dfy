/** The options of tracked selects, told by an observer beside the one of LoginAcceptance, and with them the exact
    condition under which a login page is accepted. */
module LoginOptions {
  import opened Markup
  import opened LoginPage
  import opened LoginAcceptance

  // ---- The observer ----

  /** An option of the select `select`; `grouped` says that its optgroup is disabled, `text` is what stands in it
      outside scripts and inert templates. */
  datatype Choice = Choice(select: string, attributes: Attributes, grouped: bool, text: string)
  {
    predicate Enabled() { "disabled" !in attributes && !grouped }

    predicate Nonempty() { if "value" in attributes then attributes["value"] != "" else NonBlank(text) }
  }

  /** The select that is being read, if any, its open optgroup, option and script, and all options so far. */
  datatype Menu = Menu(select: string, grouped: bool, open: bool, scripted: bool, choices: seq<Choice>)

  const NO_MENU := Menu("", false, false, false, [])

  function Ended(m: Menu): Menu {
    m.(open := false, scripted := false)
  }

  function ListenEnd(m: Menu, name: string): Menu {
    match name
    case "script" => m.(scripted := false)
    case "option" => Ended(m)
    case "optgroup" => Ended(m).(grouped := false)
    case "select" => Ended(m).(grouped := false, select := "")
    case _ => m
  }

  function ListenTag(m: Menu, place: Place, name: string, attributes: Attributes): Menu {
    if m.select == "" then
      if name == "select" && place.PostForm? && LoginName(Attr(attributes, "name"))
      then m.(select := Attr(attributes, "name"), grouped := false) else m
    else
      match name
      case "script" => m.(scripted := m.open)
      case "optgroup" => Ended(m).(grouped := "disabled" in attributes)
      case "option" => Ended(m).(open := true, choices := m.choices + [Choice(m.select, attributes, m.grouped, "")])
      case _ => m
  }

  function ListenText(m: Menu, text: string): Menu {
    if m.choices == [] || !m.open || m.scripted then m
    else
      var last := m.choices[|m.choices| - 1];
      m.(choices := m.choices[..|m.choices| - 1] + [last.(text := last.text + text)])
  }

  function Listen(m: Menu, v: View, token: Token): Menu
    requires |v.levels| > 0
  {
    if Here(v).inert then m
    else
      match token
      case Text(text) => ListenText(m, text)
      case End(name) => ListenEnd(m, name)
      case Start(name, attributes) => ListenTag(m, Here(v).place, name, attributes)
      case SelfClosing(name, attributes) => ListenTag(m, Here(v).place, name, attributes)
      case Other => m
  }

  /** What has been heard of the options by the end of the tokens. */
  function Heard(tokens: seq<Token>): Menu {
    if tokens == [] then NO_MENU
    else Listen(Heard(tokens[..|tokens| - 1]), Watch(tokens[..|tokens| - 1]).0, tokens[|tokens| - 1])
  }

  predicate Offers(choices: seq<Choice>, name: string) {
    exists c | c in choices :: c.select == name && c.Enabled() && c.Nonempty()
  }

  /** Every select of the POST form for the user's name has an enabled nonempty option. */
  predicate Stocked(sights: seq<Sight>, choices: seq<Choice>) {
    forall s | s in sights && s.Field() && s.tag == "select" && s.Name() in {"username", "identity"} ::
      Offers(choices, s.Name())
  }

  // ---- The validator's counters agree with it ----

  predicate SelectAgrees(s: Select, m: Menu) {
    && s.control == m.select && s.groupDisabled == m.grouped && s.script == m.scripted
    && (s.option != "" <==> m.open) && (m.scripted ==> m.open)
    && (!m.open ==> !s.eligible)
    && (m.open ==> m.choices != [] && m.select != "" && OptionAgrees(s, m.choices[|m.choices| - 1]))
  }

  predicate OptionAgrees(s: Select, c: Choice) {
    && s.option == s.control == c.select && (s.eligible <==> c.Enabled())
    && (s.hasValue <==> "value" in c.attributes) && s.value == Attr(c.attributes, "value")
    && (s.eligible ==> s.text == c.text)
  }

  function Closed(m: Menu): seq<Choice> {
    if m.open && m.choices != [] then m.choices[..|m.choices| - 1] else m.choices
  }

  /** The counters count the options that are closed. */
  predicate CountsAgree(controls: Controls, m: Menu) {
    && (forall c | c in m.choices :: Sensitive(c.select) && c.select in controls)
    && forall name | name in controls && Sensitive(name) ::
         controls[name].enabledOptions > 0 <==> Offers(Closed(m), name)
  }

  predicate MenuOK(p: Page, m: Menu) {
    SelectAgrees(p.select, m) && CountsAgree(p.forms.controls, m) && (m.select != "" ==> Sensitive(m.select))
  }

  lemma OffersMore(choices: seq<Choice>, c: Choice, name: string)
    ensures Offers(choices + [c], name) <==> Offers(choices, name) || (c.select == name && c.Enabled() && c.Nonempty())
  {
    var all := choices + [c];
    assert c in all && forall d | d in choices :: d in all;
  }

  lemma CountIsLast(s: Select, m: Menu)
    requires SelectAgrees(s, m) && m.open
    ensures var c := m.choices[|m.choices| - 1];
      OptionCounts(s) <==> c.Enabled() && c.Nonempty()
  {
  }

  /** Ending an option counts it. */
  lemma FinishAgrees(s: Select, controls: Controls, m: Menu)
    requires SelectAgrees(s, m) && CountsAgree(controls, m)
    ensures CountsAgree(CountOption(s, controls), Ended(m))
  {
    hide Sensitive, Offers, OptionCounts;
    if m.open {
      var front, c := m.choices[..|m.choices| - 1], m.choices[|m.choices| - 1];
      CountIsLast(s, m);
      assert c in m.choices && m.choices == front + [c];
      forall name
        ensures Offers(m.choices, name) <==> Offers(front, name) || (c.select == name && c.Enabled() && c.Nonempty())
      {
        OffersMore(front, c, name);
      }
    } else {
      assert !OptionCounts(s) by { OnlyEligibleCounts(s); }
    }
  }

  lemma OnlyEligibleCounts(s: Select)
    ensures OptionCounts(s) ==> s.eligible
  {
  }

  lemma ForgetAgrees(s: Select, m: Menu)
    requires SelectAgrees(s, m)
    ensures SelectAgrees(ForgetOption(s), Ended(m))
  {
  }

  lemma EndListened(s: Select, controls: Controls, m: Menu, name: string)
    requires SelectAgrees(s, m) && CountsAgree(controls, m)
    ensures SelectAgrees(CloseSelect(s, name), ListenEnd(m, name))
    ensures CountsAgree(CloseControls(s, controls, name), ListenEnd(m, name))
  {
    hide Sensitive, Offers, CountOption;
    FinishAgrees(s, controls, m);
    ForgetAgrees(s, m);
  }

  lemma TextListened(s: Select, controls: Controls, m: Menu, text: string)
    requires SelectAgrees(s, m) && CountsAgree(controls, m)
    ensures SelectAgrees(if s.eligible && !s.script then s.(text := s.text + text) else s, ListenText(m, text))
    ensures CountsAgree(controls, ListenText(m, text))
  {
    hide Sensitive, Offers;
    var n := ListenText(m, text);
    if n != m {
      assert Closed(n) == Closed(m);
      forall c | c in n.choices ensures Sensitive(c.select) && c.select in controls {
        assert m.choices[|m.choices| - 1] in m.choices;
        assert c in m.choices || c.select == m.choices[|m.choices| - 1].select;
      }
    }
  }

  /** Before it is looked at as a control, a tag inside a tracked select ends and begins options. */
  lemma TagListened(s: Select, controls: Controls, m: Menu, place: Place, name: string, attributes: Attributes)
    requires SelectAgrees(s, m) && CountsAgree(controls, m) && OpenSelect(s, name, attributes).Pass? && m.select != ""
    requires Sensitive(m.select) && m.select in controls
    ensures SelectAgrees(OpenSelect(s, name, attributes).value, ListenTag(m, place, name, attributes))
    ensures CountsAgree(OpenControls(s, controls, name), ListenTag(m, place, name, attributes))
  {
    hide Sensitive, Offers;
    if name == "option" || name == "optgroup" {
      FinishAgrees(s, controls, m);
      ForgetAgrees(s, m);
      ListenedOption(s, controls, m, name, attributes);
    }
  }

  lemma ListenedOption(s: Select, controls: Controls, m: Menu, name: string, attributes: Attributes)
    requires CountsAgree(CountOption(s, controls), Ended(m)) && m.select in controls && Sensitive(m.select)
    ensures var more := Ended(m).(open := true, choices := m.choices + [Choice(m.select, attributes, m.grouped, "")]);
      CountsAgree(CountOption(s, controls), more)
    ensures CountsAgree(CountOption(s, controls), Ended(m).(grouped := "disabled" in attributes))
  {
    hide Sensitive, Offers;
    var more := Ended(m).(open := true, choices := m.choices + [Choice(m.select, attributes, m.grouped, "")]);
    assert Closed(more) == m.choices == Closed(Ended(m));
  }

  /** The select part of a start tag, before forms and controls. */
  lemma TagSelected(p: Page, m: Menu, place: Place, name: string, attributes: Attributes)
    requires MenuOK(p, m) && SelectOK(p.select, p.forms.controls) && OpenSelect(p.select, name, attributes).Pass?
    requires m.select == "" ==> !(name == "select" && place.PostForm? && Sensitive(Attr(attributes, "name")))
    ensures SelectAgrees(OpenSelect(p.select, name, attributes).value, ListenTag(m, place, name, attributes))
    ensures CountsAgree(OpenControls(p.select, p.forms.controls, name), ListenTag(m, place, name, attributes))
    ensures ListenTag(m, place, name, attributes).select == m.select
  {
    hide Sensitive, Offers, CountOption, ForgetOption;
    if m.select != "" {
      TagListened(p.select, p.forms.controls, m, place, name, attributes);
    }
  }

  lemma OtherListened(p: Page, m: Menu, place: Place, name: string, attributes: Attributes)
    requires |p.scopes| > 0 && MenuOK(p, m) && SelectOK(p.select, p.forms.controls)
    requires name != "form" && !IsControl(name) && OpenTag(p, name, attributes).Pass?
    ensures MenuOK(OpenTag(p, name, attributes).value, ListenTag(m, place, name, attributes))
  {
    hide Sensitive, SelectAgrees, CountsAgree, OpenSelect, OpenControls, SelectOK, ListenTag;
    TagSelected(p, m, place, name, attributes);
  }

  lemma FormListened(p: Page, m: Menu, place: Place, attributes: Attributes, sights: seq<Sight>)
    requires |p.scopes| > 0 && MenuOK(p, m) && RecordOK(p, sights)
    requires OpenTag(p, "form", attributes).Pass?
    ensures MenuOK(OpenTag(p, "form", attributes).value, ListenTag(m, place, "form", attributes))
  {
    hide Sensitive, Offers, IsPost, KeysOK, ValuesOK, NamesOnce, AllSound, TargetsOK;
    var q := OpenTag(p, "form", attributes).value;
    if q.forms.controls == map[] && p.forms.controls != map[] {
      NoChoicesYet(p.forms, sights);
    }
  }

  /** Before the POST form opens, no control has been recorded. */
  lemma NoChoicesYet(f: Forms, sights: seq<Sight>)
    requires KeysOK(f.controls, sights) && PostOK(f, sights)
    ensures f.postForms == 0 ==> f.controls == map[]
  {
    if f.postForms == 0 {
      forall name ensures name !in f.controls {
        assert !FieldNamed(sights, name);
      }
    }
  }

  lemma ControlListened(p: Page, v: View, m: Menu, name: string, attributes: Attributes, sights: seq<Sight>)
    requires ViewOK(p, v) && RecordOK(p, sights) && MenuOK(p, m)
    requires IsControl(name) && OpenTag(p, name, attributes).Pass?
    ensures MenuOK(OpenTag(p, name, attributes).value, ListenTag(m, Here(v).place, name, attributes))
  {
    hide Sensitive, Offers, KeysOK, ValuesOK, NamesOnce, AllSound, TargetsOK, PostOK, InDisabledFieldset, Unsuitable,
      Overriding;
    hide CountOption, ForgetOption, Duplicate, OpenFieldsets, Push;
    EmptyNotSensitive();
    ViewAtTop(p, v);
    var n, controls := Attr(attributes, "name"), p.forms.controls;
    var q := OpenTag(p, name, attributes).value;
    assert OpenControls(p.select, controls, name) == controls;
    if Top(p.scopes).inPost && n != "" {
      if Sensitive(n) { FreshName(controls, n); }
      RecordedAgrees(controls, m, n, Control(name, ToLower(Attr(attributes, "type")), Attr(attributes, "value"), 0));
    }
  }

  lemma FreshName(controls: Controls, name: string)
    ensures !Duplicate(controls, name) ==> name !in controls
  {
    assert EqualFold(name, name);
  }

  lemma RecordedAgrees(controls: Controls, m: Menu, name: string, control: Control)
    requires CountsAgree(controls, m) && control.enabledOptions == 0 && (Sensitive(name) ==> name !in controls)
    ensures CountsAgree(controls[name := control], m)
  {
    hide Sensitive;
    if Sensitive(name) {
      assert Offers(Closed(m), name) ==> exists c :: c in m.choices && c.select == name;
    }
  }

  lemma StepListened(p: Page, v: View, m: Menu, token: Token, sights: seq<Sight>)
    requires ViewOK(p, v) && RecordOK(p, sights) && MenuOK(p, m) && Step(p, token).Pass?
    ensures MenuOK(Step(p, token).value, Listen(m, v, token))
  {
    hide Sensitive, OpenTag, ListenTag, SelectAgrees, CountsAgree, RecordOK, CloseNesting;
    ViewAtTop(p, v);
    if !Here(v).inert {
      match token
      case Text(text) => TextStep(p, m, text);
      case Start(name, attributes) => StartListened(p, v, m, name, attributes, sights);
      case SelfClosing(name, attributes) => StartListened(p, v, m, name, attributes, sights);
      case End(name) => EndListened(p.select, p.forms.controls, m, name);
      case Other =>
    }
  }

  lemma TextStep(p: Page, m: Menu, text: string)
    requires |p.scopes| > 0 && !Top(p.scopes).inert && MenuOK(p, m)
    ensures MenuOK(Step(p, Text(text)).value, ListenText(m, text))
  {
    hide Sensitive, SelectAgrees, CountsAgree;
    TextListened(p.select, p.forms.controls, m, text);
  }

  lemma StartListened(p: Page, v: View, m: Menu, name: string, attributes: Attributes, sights: seq<Sight>)
    requires ViewOK(p, v) && RecordOK(p, sights) && MenuOK(p, m)
    ensures name == "template" ==> ListenTag(m, Here(v).place, name, attributes) == m
    ensures var r := OpenTag(p, name, attributes);
      r.Pass? ==> MenuOK(r.value, ListenTag(m, Here(v).place, name, attributes))
  {
    hide OpenTag, MenuOK, RecordOK, LevelOK;
    if OpenTag(p, name, attributes).Pass? {
      RecordedSelect(p, sights);
      if name == "form" {
        FormListened(p, m, Here(v).place, attributes, sights);
      } else if IsControl(name) {
        ControlListened(p, v, m, name, attributes, sights);
      } else {
        OtherListened(p, m, Here(v).place, name, attributes);
      }
    }
  }

  lemma RecordedSelect(p: Page, sights: seq<Sight>)
    requires RecordOK(p, sights)
    ensures SelectOK(p.select, p.forms.controls)
  {
  }

  lemma {:induction false} RunListened(tokens: seq<Token>)
    requires Run(BLANK, tokens).Pass?
    ensures MenuOK(Run(BLANK, tokens).value, Heard(tokens))
  {
    hide Step, Listen, MenuOK, ViewOK, RecordOK;
    if tokens == [] {
      NothingHeard();
    } else {
      var front := tokens[..|tokens| - 1];
      RunWatched(front);
      RunListened(front);
      var (v, sights) := Watch(front);
      StepListened(Run(BLANK, front).value, v, Heard(front), tokens[|tokens| - 1], sights);
    }
  }

  lemma NothingHeard()
    ensures MenuOK(BLANK, NO_MENU)
  {
  }

  // ---- Accepted pages ----

  /** At the end of the page the counter of a sensitive control is positive exactly when one of its options counts. */
  lemma CountersTell(p: Page, m: Menu, name: string)
    requires MenuOK(p, m) && SelectOK(p.select, p.forms.controls) && name in p.forms.controls && Sensitive(name)
    ensures CountOption(p.select, p.forms.controls)[name].enabledOptions > 0 <==> Offers(m.choices, name)
  {
    hide Sensitive, Offers;
    FinishAgrees(p.select, p.forms.controls, m);
    assert Closed(Ended(m)) == m.choices;
  }

  lemma NamesSensitive()
    ensures Sensitive("username") && Sensitive("identity")
  {
  }

  lemma StockedIff(p: Page, m: Menu, sights: seq<Sight>)
    requires MenuOK(p, m) && RecordOK(p, sights)
    ensures (forall name | name in p.forms.controls :: !LacksOption(CountOption(p.select, p.forms.controls), name))
       <==> Stocked(sights, m.choices)
  {
    hide Sensitive, Offers, MenuOK, CountOption, KeysOK, ValuesOK, NamesOnce, AllSound, SelectOK, PostOK, TargetsOK;
    var before := p.forms.controls;
    var controls := CountOption(p.select, before);
    CountKeeps(p.select, before);
    SameFieldsOK(before, controls, sights);
    NamesSensitive();
    forall name | name in before && name in {"username", "identity"}
      ensures LacksOption(controls, name) <==>
        !Offers(m.choices, name) && exists s :: s in sights && s.Field() && s.tag == "select" && s.Name() == name
    {
      CountersTell(p, m, name);
      SelectBehind(controls, sights, name);
    }
    forall s | s in sights && s.Field() && s.Name() in {"username", "identity"} ensures s.Name() in before {
      FieldKept(before, sights, s);
    }
  }

  lemma FieldKept(controls: Controls, sights: seq<Sight>, s: Sight)
    requires KeysOK(controls, sights) && s in sights && s.Field() && s.Name() != ""
    ensures s.Name() in controls
  {
    assert FieldNamed(sights, s.Name());
  }

  lemma SelectBehind(controls: Controls, sights: seq<Sight>, name: string)
    requires KeysOK(controls, sights) && ValuesOK(controls, sights) && name in controls && Sensitive(name)
    ensures controls[name].tag == "select" <==>
      exists s :: s in sights && s.Field() && s.tag == "select" && s.Name() == name
  {
    hide Sensitive, KeysOK;
    var t := FieldBehind(controls, sights, name);
    if s :| s in sights && s.Field() && s.tag == "select" && s.Name() == name {
      assert HasValues(controls, s);
    }
  }

  /** A page is accepted exactly when it has one POST form outside inert templates, posting to the login path; no
      sensitive name occurs twice in it, whatever its case; both hidden fields carry the rendered values; every
      sensitive control on the page is enabled, stays with its form and is sent without a submitter; no submit
      control overrides the form; and its selects for the user's name each have an enabled nonempty option. */
  lemma {:induction false} AcceptedIff(tokens: seq<Token>, basePath: string, mode: Mode, requestID: string,
                                       csrf: string)
    ensures Validate(tokens, basePath, mode, requestID, csrf).Pass? <==>
      && LoginForm(Watch(tokens).1, basePath, mode, requestID, csrf)
      && Stocked(Watch(tokens).1, Heard(tokens).choices)
  {
    hide Step, Run, Watch, Heard, LoginForm, FormComplaint, CountOption, Stocked, RecordOK, MenuOK;
    LoopPassesIff(tokens);
    if Run(BLANK, tokens).Pass? {
      RunWatched(tokens);
      RunListened(tokens);
      var p, sights := Run(BLANK, tokens).value, Watch(tokens).1;
      FormPassesIff(p, sights, basePath, mode, requestID, csrf);
      StockedIff(p, Heard(tokens), sights);
    } else {
      LoginFormLoops(Watch(tokens).1, basePath, mode, requestID, csrf);
    }
  }
}
