/** Which login pages are accepted, told by an observer that follows templates, open elements, forms and the
    tracked select through the token stream and lists the live start tags. */
module LoginAcceptance {
  import opened Markup
  import opened LoginPage

  // ---- What the source's tests mean ----

  /** The five names the server reads from a login form, in any letter case. */
  predicate LoginName(name: string)
    ensures LoginName(name) <==> Sensitive(name)
  {
    || SameName(name, "authRequestID") || SameName(name, "csrf") || SameName(name, "identity")
    || SameName(name, "username") || SameName(name, "password")
  }

  predicate Posts(attributes: Attributes)
    ensures Posts(attributes) <==> IsPost(attributes)
  {
    "method" in attributes && SameName(attributes["method"], "post")
  }

  predicate FormControl(tag: string)
    ensures FormControl(tag) <==> IsControl(tag)
  {
    tag == "input" || tag == "select" || tag == "textarea" || tag == "button"
  }

  predicate LiveRoot(attributes: Attributes)
    ensures LiveRoot(attributes) <==> Shadow(attributes)
  {
    && "shadowrootmode" in attributes
    && (Spells(attributes["shadowrootmode"], "open") || Spells(attributes["shadowrootmode"], "closed"))
  }

  /** The `type` of a control is the word, in any letter case. */
  predicate OfType(attributes: Attributes, word: string)
    ensures OfType(attributes, word) <==> ToLower(Attr(attributes, "type")) == word
  {
    Spells(if "type" in attributes then attributes["type"] else "", word)
  }

  /** The control is sent with exactly one value whenever the form is, whatever submits it. */
  predicate SentAlone(tag: string, attributes: Attributes)
    ensures SentAlone(tag, attributes) <==> Unsuitable(tag, attributes).Pass?
  {
    && tag != "button"
    && (tag == "input" ==>
          && !OfType(attributes, "button") && !OfType(attributes, "reset") && !OfType(attributes, "submit")
          && !OfType(attributes, "image") && !OfType(attributes, "file") && !OfType(attributes, "checkbox")
          && (OfType(attributes, "radio") ==> "checked" in attributes))
    && (tag == "select" ==> "multiple" !in attributes)
  }

  /** Why a control is refused: the first of these reasons that applies. */
  datatype Reason = Off | Elsewhere | Again | ByButton | NoValue | Unchecked | ManyValues | None

  function ReasonAgainst(n: Nesting, scope: Scope, controls: Controls, tag: string, attributes: Attributes): Reason {
    var name := if "name" in attributes then attributes["name"] else "";
    if !LoginName(name) then None
    else if "disabled" in attributes || (exists f | f in n.fieldsets :: f.disabled && !f.firstLegendOpen) then Off
    else if "form" in attributes then Elsewhere
    else if !scope.inPost then None
    else if exists earlier | earlier in controls :: SameName(earlier, name) then Again
    else if tag == "button" then ByButton
    else if SentAlone(tag, attributes) then None
    else if tag == "select" then ManyValues
    else if OfType(attributes, "radio") then Unchecked
    else NoValue
  }

  /** A control passes when no reason speaks against it, and otherwise the complaint names the reason. */
  lemma ComplaintIsReason(n: Nesting, scope: Scope, controls: Controls, tag: string, attributes: Attributes)
    requires FormControl(tag)
    ensures var r, reason := ControlComplaint(n, scope, controls, tag, attributes),
                             ReasonAgainst(n, scope, controls, tag, attributes);
      && (r.Pass? <==> reason == None)
      && (r == Fail(DisabledControl) <==> reason == Off) && (r == Fail(ReassociatedControl) <==> reason == Elsewhere)
      && (r == Fail(DuplicateControl) <==> reason == Again) && (r == Fail(NeedsSubmitter) <==> reason == ByButton)
      && (r == Fail(NotScalar) <==> reason == NoValue) && (r == Fail(NotChecked) <==> reason == Unchecked)
      && (r == Fail(MultipleSelect) <==> reason == ManyValues)
  {
    hide SameName, Spells, EqualFold, ToLower;
    EmptyNotSensitive();
  }

  // ---- The observer ----

  datatype Place = NoForm | OtherForm | PostForm

  /** `form` is the index of the enclosing form among the live ones, or -1. */
  datatype Level = Level(inert: bool, place: Place, form: int)

  datatype View = View(levels: seq<Level>, tracking: bool, nesting: Nesting, forms: nat)

  /** A live start tag, the form it is in, whether it is inside a tracked select, and whether a fieldset disables it. */
  datatype Sight = Sight(tag: string, attributes: Attributes, place: Place, form: int, tracked: bool, barred: bool)
  {
    function Name(): string { Attr(attributes, "name") }

    /** A control of the POST form. */
    predicate Field() { FormControl(tag) && place.PostForm? }

    predicate PostTag() { tag == "form" && Posts(attributes) }
  }

  const AFAR := View([Level(false, NoForm, -1)], false, BLANK.nesting, 0)

  function Here(v: View): Level
    requires |v.levels| > 0
  {
    v.levels[|v.levels| - 1]
  }

  function Moved(v: View, place: Place, form: int): (w: View)
    requires |v.levels| > 0
    ensures |w.levels| == |v.levels|
  {
    v.(levels := v.levels[..|v.levels| - 1] + [Here(v).(place := place, form := form)])
  }

  function LookAtTag(v: View, name: string, attributes: Attributes): (w: View)
    requires |v.levels| > 0
    ensures |w.levels| == |v.levels|
  {
    LookInto(v.(nesting := Push(OpenFieldsets(v.nesting, name, attributes), name)), name, attributes)
  }

  function LookInto(v: View, name: string, attributes: Attributes): (w: View)
    requires |v.levels| > 0
    ensures |w.levels| == |v.levels|
  {
    if name == "form" then
      var place := if Posts(attributes) then PostForm else OtherForm;
      var w := if Here(v).place.NoForm? then Moved(v, place, v.forms) else v;
      w.(forms := v.forms + 1)
    else if name == "select" && Here(v).place.PostForm? && LoginName(Attr(attributes, "name")) then v.(tracking := true)
    else v
  }

  function LookAtEnd(v: View, name: string): (w: View)
    requires |v.levels| > 0
    ensures |w.levels| == |v.levels|
  {
    if name == "form" then Moved(v, NoForm, -1)
    else if name == "select" then v.(tracking := false)
    else v
  }

  function Look(v: View, token: Token): (w: View)
    requires |v.levels| > 0
    ensures |w.levels| > 0
  {
    match token
    case Text(_) => v
    case Other => v
    case End(name) =>
      if name == "template" then (if |v.levels| > 1 then v.(levels := v.levels[..|v.levels| - 1]) else v)
      else if Here(v).inert then v
      else LookAtEnd(v.(nesting := CloseNesting(v.nesting, name)), name)
    case Start(name, attributes) =>
      if name == "template"
      then v.(levels := v.levels + [Level(Here(v).inert || v.tracking || !LiveRoot(attributes), NoForm, -1)])
      else if Here(v).inert then v
      else LookAtTag(v, name, attributes)
    case SelfClosing(name, attributes) =>
      if name == "template" || Here(v).inert then v else LookAtTag(v, name, attributes)
  }

  function Seen(v: View, name: string, attributes: Attributes): Sight
    requires |v.levels| > 0
  {
    Sight(name, attributes, Here(v).place, Here(v).form, v.tracking,
          InDisabledFieldset(OpenFieldsets(v.nesting, name, attributes)))
  }

  function Sighted(v: View, token: Token): seq<Sight>
    requires |v.levels| > 0
  {
    if (token.Start? || token.SelfClosing?) && token.name != "template" && !Here(v).inert
    then [Seen(v, token.name, token.attributes)] else []
  }

  function Watch(tokens: seq<Token>): (r: (View, seq<Sight>))
    ensures |r.0.levels| > 0
  {
    if tokens == [] then (AFAR, [])
    else
      var (v, sights) := Watch(tokens[..|tokens| - 1]);
      (Look(v, tokens[|tokens| - 1]), sights + Sighted(v, tokens[|tokens| - 1]))
  }

  function PostTags(sights: seq<Sight>): nat {
    if sights == [] then 0
    else PostTags(sights[..|sights| - 1]) + if sights[|sights| - 1].PostTag() then 1 else 0
  }

  // ---- A scope is in the POST form exactly when its form stack is that form ----

  predicate LevelOK(scope: Scope, level: Level, f: Forms) {
    && scope.inert == level.inert
    && |scope.forms| <= 1
    && (scope.forms != [] ==> scope.forms[0] < |f.forms|)
    && (level.place.NoForm? <==> scope.forms == [])
    && (level.place.PostForm? <==> scope.inPost)
    && (scope.inPost <==> f.postForm >= 0 && scope.forms == [f.postForm as nat])
    && scope.postForm == (if scope.inPost then f.postForm else -1)
    && level.form == Owner(scope)
  }

  predicate ViewOK(p: Page, v: View) {
    && |p.scopes| == |v.levels| > 0
    && (forall k | 0 <= k < |p.scopes| :: LevelOK(p.scopes[k], v.levels[k], p.forms))
    && (v.tracking <==> p.select.control != "")
    && v.nesting == p.nesting && v.forms == |p.forms.forms|
  }

  predicate CountOK(f: Forms) {
    f.postForms <= 1 && (f.postForms == 0 <==> f.postForm == -1) && -1 <= f.postForm < |f.forms|
  }

  lemma ViewAtTop(p: Page, v: View)
    requires ViewOK(p, v)
    ensures LevelOK(Top(p.scopes), Here(v), p.forms)
  {
  }

  lemma SameTop(p: Page, v: View, q: Page, w: View)
    requires ViewOK(p, v) && |q.scopes| == |p.scopes| && |w.levels| == |v.levels|
    requires q.scopes[..|p.scopes| - 1] == p.scopes[..|p.scopes| - 1]
      && w.levels[..|v.levels| - 1] == v.levels[..|v.levels| - 1]
    requires q.forms.forms == p.forms.forms && q.forms.postForm == p.forms.postForm
    requires LevelOK(Top(q.scopes), Here(w), q.forms) && (w.tracking <==> q.select.control != "")
    requires w.nesting == q.nesting && w.forms == |q.forms.forms|
    ensures ViewOK(q, w)
  {
    forall k | 0 <= k < |q.scopes| ensures LevelOK(q.scopes[k], w.levels[k], q.forms) {
      if k < |q.scopes| - 1 {
        assert q.scopes[k] == q.scopes[..|p.scopes| - 1][k] == p.scopes[k];
        assert w.levels[k] == w.levels[..|v.levels| - 1][k] == v.levels[k];
      }
    }
  }

  lemma CloseView(p: Page, v: View, name: string)
    requires ViewOK(p, v) && CountOK(p.forms) && name != "template" && !Top(p.scopes).inert
    ensures ViewOK(CloseTag(p, name), Look(v, End(name)))
  {
    ViewAtTop(p, v);
    var q, w := CloseTag(p, name), Look(v, End(name));
    assert LevelOK(Top(q.scopes), Here(w), q.forms);
    SameTop(p, v, q, w);
  }

  lemma OpenSelectKeeps(select: Select, name: string, attributes: Attributes)
    ensures var s := OpenSelect(select, name, attributes); s.Pass? ==> s.value.control == select.control
  {
  }

  lemma OpenView(p: Page, v: View, name: string, attributes: Attributes)
    requires ViewOK(p, v) && CountOK(p.forms) && name != "form" && OpenTag(p, name, attributes).Pass?
    ensures var q := OpenTag(p, name, attributes).value; ViewOK(q, LookAtTag(v, name, attributes)) && CountOK(q.forms)
  {
    hide OpenFieldsets, Push, OpenSelect, OpenControls, ControlComplaint, Overriding, Sensitive;
    ViewAtTop(p, v);
    EmptyNotSensitive();
    OpenSelectKeeps(p.select, name, attributes);
    SameTop(p, v, OpenTag(p, name, attributes).value, LookAtTag(v, name, attributes));
  }

  lemma EmptyNotSensitive()
    ensures !Sensitive("")
  {
    assert |Fold("")| == 0 && |Fold("authRequestID")| == 13 && |Fold("csrf")| == 4 && |Fold("identity")| == 8
        && |Fold("username")| == 8 && |Fold("password")| == 8;
  }

  lemma OpenFormView(p: Page, v: View, attributes: Attributes)
    requires ViewOK(p, v) && CountOK(p.forms) && OpenTag(p, "form", attributes).Pass?
    ensures var q := OpenTag(p, "form", attributes).value;
      ViewOK(q, LookAtTag(v, "form", attributes)) && CountOK(q.forms)
  {
    FormEntered(p, v, attributes);
    OpenSelectKeeps(p.select, "form", attributes);
    hide OpenFieldsets, Push, OpenSelect, OpenControls, LevelOK, Moved, Replace, IsPost;
    var q, w := OpenTag(p, "form", attributes).value, LookAtTag(v, "form", attributes);
    forall k | 0 <= k < |q.scopes| - 1 ensures LevelOK(q.scopes[k], w.levels[k], q.forms) {
      assert q.scopes[..|p.scopes| - 1][k] == p.scopes[k] && w.levels[..|v.levels| - 1][k] == v.levels[k];
      LevelStays(p.scopes[k], v.levels[k], p.forms, q.forms);
    }
  }

  lemma FormEntered(p: Page, v: View, attributes: Attributes)
    requires ViewOK(p, v) && CountOK(p.forms) && OpenTag(p, "form", attributes).Pass?
    ensures var q, w := OpenTag(p, "form", attributes).value, LookAtTag(v, "form", attributes);
      && LevelOK(Top(q.scopes), Here(w), q.forms) && CountOK(q.forms)
      && q.scopes[..|q.scopes| - 1] == p.scopes[..|p.scopes| - 1]
      && w.levels[..|w.levels| - 1] == v.levels[..|v.levels| - 1]
      && |q.forms.forms| == |p.forms.forms| + 1
      && (q.forms.postForm == p.forms.postForm || (p.forms.postForms == 0 && q.forms.postForm == |p.forms.forms|))
  {
    hide OpenFieldsets, Push, OpenSelect, OpenControls, IsPost, Posts, SameName, EqualFold;
    ViewAtTop(p, v);
    var q, w := OpenTag(p, "form", attributes).value, LookAtTag(v, "form", attributes);
    assert Top(p.scopes).forms + [|p.forms.forms|] == [|p.forms.forms|];
    assert Top(q.scopes).forms == [|p.forms.forms|];
  }

  /** Scopes outside a new form are not touched: none of them was in the POST form if this is it. */
  lemma LevelStays(scope: Scope, level: Level, f: Forms, g: Forms)
    requires LevelOK(scope, level, f) && CountOK(f) && |g.forms| == |f.forms| + 1
    requires g.postForm == f.postForm || (f.postForms == 0 && g.postForm == |f.forms|)
    ensures LevelOK(scope, level, g)
  {
  }

  lemma StepView(p: Page, v: View, token: Token)
    requires ViewOK(p, v) && CountOK(p.forms) && Step(p, token).Pass?
    ensures var q := Step(p, token).value; ViewOK(q, Look(v, token)) && CountOK(q.forms)
  {
    hide OpenTag, CloseTag, LookAtTag;
    ViewAtTop(p, v);
    match token
    case Start(name, attributes) => StepViewTag(p, v, name, attributes);
    case SelfClosing(name, attributes) => StepViewTag(p, v, name, attributes);
    case End(name) =>
      if name != "template" && !Top(p.scopes).inert {
        CloseView(p, v, name);
        CloseCounts(p, name);
      }
    case _ =>
  }

  lemma CloseCounts(p: Page, name: string)
    requires |p.scopes| > 0
    ensures CountOK(p.forms) ==> CountOK(CloseTag(p, name).forms)
  {
  }

  lemma StepViewTag(p: Page, v: View, name: string, attributes: Attributes)
    requires ViewOK(p, v) && CountOK(p.forms)
    ensures var r := OpenTag(p, name, attributes);
      r.Pass? ==> ViewOK(r.value, LookAtTag(v, name, attributes)) && CountOK(r.value.forms)
  {
    hide OpenTag, LookAtTag;
    if OpenTag(p, name, attributes).Pass? {
      if name == "form" {
        OpenFormView(p, v, attributes);
      } else {
        OpenView(p, v, name, attributes);
      }
    }
  }

  // ---- What the form record says about the tags seen ----

  predicate FieldNamed(sights: seq<Sight>, name: string) {
    exists s | s in sights :: s.Field() && s.Name() == name
  }

  ghost predicate KeysOK(controls: Controls, sights: seq<Sight>) {
    "" !in controls && forall name | name != "" :: name in controls <==> FieldNamed(sights, name)
  }

  predicate HasValues(controls: Controls, s: Sight) {
    s.Name() in controls && var control := controls[s.Name()];
    && control.tag == s.tag && control.kind == ToLower(Attr(s.attributes, "type"))
    && control.value == Attr(s.attributes, "value")
  }

  predicate ValuesOK(controls: Controls, sights: seq<Sight>) {
    forall s | s in sights && s.Field() && Sensitive(s.Name()) :: HasValues(controls, s)
  }

  predicate NamesOnce(sights: seq<Sight>) {
    forall i, j | 0 <= i < j < |sights| && sights[i].Field() && sights[j].Field() && LoginName(sights[j].Name()) ::
      !SameName(sights[i].Name(), sights[j].Name())
  }

  predicate Encoded(attributes: Attributes) {
    var enctype := Attr(attributes, "enctype");
    !SameName(enctype, "multipart/form-data") && !SameName(enctype, "text/plain")
  }

  /** No nested forms, no other controls inside a tracked select, and nothing about a sensitive control that keeps
      it out of the submission. */
  predicate Sound(s: Sight) {
    && (s.tracked ==> s.tag !in {"select", "input", "textarea"})
    && (s.tag == "form" ==> s.place.NoForm? && Encoded(s.attributes))
    && (FormControl(s.tag) && LoginName(s.Name()) ==>
          && "disabled" !in s.attributes && !s.barred && "form" !in s.attributes
          && (s.place.PostForm? ==> SentAlone(s.tag, s.attributes)))
  }

  predicate AllSound(sights: seq<Sight>) {
    forall s | s in sights :: Sound(s)
  }

  predicate SelectOK(select: Select, controls: Controls) {
    && (select.control == "" ==> !select.eligible)
    && (select.control != "" ==> select.control in controls)
    && (select.eligible ==> select.option == select.control)
  }

  predicate PostOK(f: Forms, sights: seq<Sight>) {
    && f.postForms == PostTags(sights)
    && (f.postForms == 0 ==> forall s | s in sights :: !s.Field())
    && (forall s | s in sights && s.PostTag() :: Attr(s.attributes, "action") == f.action)
  }

  // ---- Submit controls that override the form ----

  /** How many live forms there are, which is the index of the next one. */
  function FormsIn(sights: seq<Sight>): nat {
    if sights == [] then 0 else FormsIn(sights[..|sights| - 1]) + if sights[|sights| - 1].tag == "form" then 1 else 0
  }

  /** The index of the first live form with that id, or -1. */
  function FormByID(sights: seq<Sight>, id: string): (index: int)
    ensures -1 <= index
  {
    if sights == [] then -1
    else
      var front, last := sights[..|sights| - 1], sights[|sights| - 1];
      FirstForm(FormByID(front, id), FormsIn(front), last, id)
  }

  function FirstForm(before: int, index: nat, s: Sight, id: string): (first: int)
    ensures -1 <= before ==> -1 <= first
  {
    if before >= 0 then before
    else if s.tag == "form" && Attr(s.attributes, "id") == id then index
    else -1
  }

  /** The index of the last live POST form, or -1. */
  function PostFormAt(sights: seq<Sight>): int {
    if sights == [] then -1
    else if sights[|sights| - 1].PostTag() then FormsIn(sights[..|sights| - 1])
    else PostFormAt(sights[..|sights| - 1])
  }

  function OverridesOf(sights: seq<Sight>): seq<Override> {
    if sights == [] then []
    else
      var s := sights[|sights| - 1];
      Overriding(OverridesOf(sights[..|sights| - 1]), s.form, s.tag, s.attributes)
  }

  predicate IDsOK(ids: map<string, nat>, sights: seq<Sight>) {
    && "" !in ids
    && (forall id | id in ids :: FormByID(sights, id) == ids[id])
    && (forall s | s in sights && s.tag == "form" && Attr(s.attributes, "id") != "" :: Attr(s.attributes, "id") in ids)
  }

  predicate TargetsOK(f: Forms, sights: seq<Sight>) {
    && |f.forms| == FormsIn(sights) && f.postForm == PostFormAt(sights)
    && f.overrides == OverridesOf(sights) && IDsOK(f.ids, sights)
  }

  lemma MoreTargets(sights: seq<Sight>, s: Sight)
    ensures FormsIn(sights + [s]) == FormsIn(sights) + if s.tag == "form" then 1 else 0
    ensures PostFormAt(sights + [s]) == if s.PostTag() then FormsIn(sights) else PostFormAt(sights)
    ensures OverridesOf(sights + [s]) == Overriding(OverridesOf(sights), s.form, s.tag, s.attributes)
    ensures forall id :: FormByID(sights + [s], id) == FirstForm(FormByID(sights, id), FormsIn(sights), s, id)
  {
    assert (sights + [s])[..|sights|] == sights;
  }

  lemma {:induction false} UnknownID(sights: seq<Sight>, id: string)
    requires forall s | s in sights && s.tag == "form" :: Attr(s.attributes, "id") != id
    ensures FormByID(sights, id) == -1
  {
    if sights != [] {
      UnknownID(sights[..|sights| - 1], id);
    }
  }

  lemma FormTargets(f: Forms, g: Forms, sights: seq<Sight>, s: Sight)
    requires TargetsOK(f, sights) && s.tag == "form"
    requires var id := Attr(s.attributes, "id");
      g.ids == (if id != "" && id !in f.ids then f.ids[id := |f.forms|] else f.ids) && |g.forms| == |f.forms| + 1
      && g.postForm == (if IsPost(s.attributes) then |f.forms| else f.postForm) && g.overrides == f.overrides
    ensures TargetsOK(g, sights + [s])
  {
    MoreTargets(sights, s);
    var id := Attr(s.attributes, "id");
    if id != "" && id !in f.ids {
      UnknownID(sights, id);
    }
  }

  lemma OtherTargets(f: Forms, g: Forms, sights: seq<Sight>, s: Sight)
    requires TargetsOK(f, sights) && s.tag != "form"
    requires g.ids == f.ids && g.forms == f.forms && g.postForm == f.postForm
    requires g.overrides == Overriding(f.overrides, s.form, s.tag, s.attributes)
    ensures TargetsOK(g, sights + [s])
  {
    MoreTargets(sights, s);
  }

  lemma SameTargets(f: Forms, g: Forms, sights: seq<Sight>)
    requires TargetsOK(f, sights) && g == f.(controls := g.controls)
    ensures TargetsOK(g, sights)
  {
  }

  /** A live submit control would send the POST form's data elsewhere or otherwise. */
  predicate Hijacks(sights: seq<Sight>, s: Sight) {
    var formID := Attr(s.attributes, "form");
    && s.tag in {"input", "button"}
    && ("formaction" in s.attributes || "formmethod" in s.attributes || "formenctype" in s.attributes)
    && (if s.tag == "button" then !OfType(s.attributes, "button") && !OfType(s.attributes, "reset")
        else OfType(s.attributes, "submit") || OfType(s.attributes, "image"))
    && PostFormAt(sights) == (if formID != "" then FormByID(sights, formID) else s.form)
    && (formID != "" ==> FormByID(sights, formID) >= 0)
  }

  lemma {:induction false} OverridesPass(f: Forms, overrides: seq<Override>)
    ensures OverrideComplaint(f, overrides).Pass? <==> forall o | o in overrides :: !Overrides(f, o)
  {
    if overrides != [] {
      OverridesPass(f, overrides[..|overrides| - 1]);
      assert overrides == overrides[..|overrides| - 1] + [overrides[|overrides| - 1]];
    }
  }

  lemma {:induction false} OverridesListed(sights: seq<Sight>)
    ensures forall s | s in sights :: forall o | o in Overriding([], s.form, s.tag, s.attributes) ::
      o in OverridesOf(sights)
    ensures forall o | o in OverridesOf(sights) ::
      exists s :: s in sights && o in Overriding([], s.form, s.tag, s.attributes)
  {
    if sights != [] {
      OverridesListed(sights[..|sights| - 1]);
      assert sights == sights[..|sights| - 1] + [sights[|sights| - 1]];
      assert sights[|sights| - 1] in sights;
    }
  }

  lemma {:induction false} IDKnown(sights: seq<Sight>, id: string)
    requires FormByID(sights, id) >= 0
    ensures exists s :: s in sights && s.tag == "form" && Attr(s.attributes, "id") == id
  {
    if FormByID(sights[..|sights| - 1], id) >= 0 {
      IDKnown(sights[..|sights| - 1], id);
      var s :| s in sights[..|sights| - 1] && s.tag == "form" && Attr(s.attributes, "id") == id;
      assert s in sights;
    } else {
      assert sights[|sights| - 1] in sights;
    }
  }

  lemma HijackOverrides(f: Forms, sights: seq<Sight>, s: Sight)
    requires TargetsOK(f, sights)
    ensures Hijacks(sights, s) <==> exists o :: o in Overriding([], s.form, s.tag, s.attributes) && Overrides(f, o)
  {
    var formID := Attr(s.attributes, "form");
    var o := Override(s.tag, ToLower(Attr(s.attributes, "type")), formID, s.form,
                      "formaction" in s.attributes, "formmethod" in s.attributes, "formenctype" in s.attributes);
    if formID != "" && FormByID(sights, formID) >= 0 {
      IDKnown(sights, formID);
    }
    if Hijacks(sights, s) {
      assert o in Overriding([], s.form, s.tag, s.attributes) && Overrides(f, o);
    }
  }

  /** The checks after the loop refuse for an override exactly when some live tag hijacks the form. */
  lemma OverridesPassIff(f: Forms, sights: seq<Sight>)
    requires TargetsOK(f, sights)
    ensures OverrideComplaint(f, f.overrides).Pass? <==> forall s | s in sights :: !Hijacks(sights, s)
  {
    hide Hijacks, Overrides, Overriding, TargetsOK;
    TargetOverrides(f, sights);
    OverridesPass(f, f.overrides);
    OverridesListed(sights);
    forall s | s in sights
      ensures Hijacks(sights, s) <==> exists o :: o in Overriding([], s.form, s.tag, s.attributes) && Overrides(f, o)
    {
      HijackOverrides(f, sights, s);
    }
  }

  lemma TargetOverrides(f: Forms, sights: seq<Sight>)
    requires TargetsOK(f, sights)
    ensures f.overrides == OverridesOf(sights)
  {
  }

  ghost predicate RecordOK(p: Page, sights: seq<Sight>) {
    && KeysOK(p.forms.controls, sights) && ValuesOK(p.forms.controls, sights)
    && NamesOnce(sights) && AllSound(sights)
    && SelectOK(p.select, p.forms.controls) && PostOK(p.forms, sights) && TargetsOK(p.forms, sights)
  }

  /** Equal but for the option counts. */
  predicate SameFields(controls: Controls, other: Controls) {
    controls.Keys == other.Keys && forall name | name in controls ::
      controls[name].(enabledOptions := 0) == other[name].(enabledOptions := 0)
  }

  lemma CountKeeps(select: Select, controls: Controls)
    requires SelectOK(select, controls)
    ensures SameFields(controls, CountOption(select, controls))
  {
  }

  lemma SameFieldsOK(controls: Controls, other: Controls, sights: seq<Sight>)
    requires SameFields(controls, other)
    ensures KeysOK(controls, sights) ==> KeysOK(other, sights)
    ensures ValuesOK(controls, sights) ==> ValuesOK(other, sights)
  {
  }

  lemma CloseRecord(p: Page, name: string, sights: seq<Sight>)
    requires |p.scopes| > 0 && RecordOK(p, sights)
    ensures RecordOK(CloseTag(p, name), sights)
  {
    hide KeysOK, ValuesOK, NamesOnce, AllSound, PostTags, TargetsOK;
    CountKeeps(p.select, p.forms.controls);
    SameFieldsOK(p.forms.controls, CountOption(p.select, p.forms.controls), sights);
    SameTargets(p.forms, CloseTag(p, name).forms, sights);
  }

  lemma OpenSelectOK(select: Select, controls: Controls, name: string, attributes: Attributes)
    requires SelectOK(select, controls) && OpenSelect(select, name, attributes).Pass?
    ensures SameFields(controls, OpenControls(select, controls, name))
    ensures select.control != "" ==> name !in {"select", "input", "textarea"}
    ensures var s := OpenSelect(select, name, attributes).value;
      s.control == select.control && SelectOK(s, OpenControls(select, controls, name))
  {
    CountKeeps(select, controls);
  }

  lemma FieldNamedMore(sights: seq<Sight>, s: Sight, name: string)
    ensures FieldNamed(sights + [s], name) <==> FieldNamed(sights, name) || (s.Field() && s.Name() == name)
  {
    if FieldNamed(sights, name) {
      var t :| t in sights && t.Field() && t.Name() == name;
      assert t in sights + [s];
    }
    if s.Field() && s.Name() == name {
      assert s in sights + [s];
    }
  }

  lemma NoNewField(controls: Controls, sights: seq<Sight>, s: Sight)
    requires KeysOK(controls, sights) && ValuesOK(controls, sights) && NamesOnce(sights) && AllSound(sights)
    requires (!s.Field() || s.Name() == "") && Sound(s)
    ensures KeysOK(controls, sights + [s]) && ValuesOK(controls, sights + [s])
    ensures NamesOnce(sights + [s]) && AllSound(sights + [s])
  {
    hide SameName, LoginName, EqualFold, Sensitive;
    EmptyNotSensitive();
    forall name | name != "" ensures name in controls <==> FieldNamed(sights + [s], name) {
      FieldNamedMore(sights, s, name);
    }
  }

  lemma NewField(controls: Controls, sights: seq<Sight>, s: Sight, control: Control)
    requires KeysOK(controls, sights) && ValuesOK(controls, sights) && NamesOnce(sights) && AllSound(sights)
    requires s.Field() && s.Name() != "" && Sound(s)
    requires Sensitive(s.Name()) ==> !Duplicate(controls, s.Name())
    requires control == Control(s.tag, ToLower(Attr(s.attributes, "type")), Attr(s.attributes, "value"), 0)
    ensures var after := controls[s.Name() := control];
      KeysOK(after, sights + [s]) && ValuesOK(after, sights + [s])
    ensures NamesOnce(sights + [s]) && AllSound(sights + [s])
  {
    hide SameName, LoginName, EqualFold, FormControl, IsControl;
    EmptyNotSensitive();
    var after, all := controls[s.Name() := control], sights + [s];
    forall name | name != "" ensures name in after <==> FieldNamed(all, name) {
      FieldNamedMore(sights, s, name);
    }
    forall i | 0 <= i < |sights| && sights[i].Field() && Sensitive(s.Name())
      ensures !EqualFold(sights[i].Name(), s.Name())
    {
      EarlierName(controls, sights, i, s.Name());
    }
    forall t | t in all && t.Field() && Sensitive(t.Name()) ensures HasValues(after, t) {
      if t != s {
        assert HasValues(controls, t);
        SensitiveStays(controls, t.Name(), s.Name());
      }
    }
  }

  lemma EarlierName(controls: Controls, sights: seq<Sight>, i: nat, name: string)
    requires KeysOK(controls, sights) && i < |sights| && sights[i].Field()
    requires Sensitive(name) && !Duplicate(controls, name)
    ensures !EqualFold(sights[i].Name(), name)
  {
    EmptyNotSensitive();
    var earlier := sights[i].Name();
    if earlier != "" {
      assert FieldNamed(sights, earlier) by { assert sights[i] in sights; }
      assert earlier in controls;
    }
  }

  /** Recording a control cannot overwrite an earlier sensitive one. */
  lemma SensitiveStays(controls: Controls, earlier: string, name: string)
    requires earlier in controls && Sensitive(earlier) && (Sensitive(name) ==> !Duplicate(controls, name))
    ensures earlier != name
  {
    if earlier == name {
      assert EqualFold(earlier, name);
      assert Duplicate(controls, name);
    }
  }

  lemma PostTagsMore(sights: seq<Sight>, s: Sight)
    ensures PostTags(sights + [s]) == PostTags(sights) + if s.PostTag() then 1 else 0
  {
    assert (sights + [s])[..|sights|] == sights;
  }

  lemma {:induction false} NoPostTags(sights: seq<Sight>)
    requires PostTags(sights) == 0
    ensures forall s | s in sights :: !s.PostTag()
  {
    if sights != [] {
      NoPostTags(sights[..|sights| - 1]);
    }
  }

  lemma EmptyControls(sights: seq<Sight>)
    requires forall s | s in sights :: !s.Field()
    ensures KeysOK(map[], sights) && ValuesOK(map[], sights)
  {
  }

  lemma OpenFormRecord(p: Page, v: View, attributes: Attributes, sights: seq<Sight>)
    requires ViewOK(p, v) && CountOK(p.forms) && RecordOK(p, sights) && OpenTag(p, "form", attributes).Pass?
    ensures RecordOK(OpenTag(p, "form", attributes).value, sights + [Seen(v, "form", attributes)])
  {
    hide KeysOK, ValuesOK, NamesOnce, AllSound, PostTags, Replace, TargetsOK, SameName, EqualFold;
    ViewAtTop(p, v);
    var s, q := Seen(v, "form", attributes), OpenTag(p, "form", attributes).value;
    FormTargets(p.forms, q.forms, sights, s);
    NoNewField(p.forms.controls, sights, s);
    PostTagsMore(sights, s);
    if IsPost(attributes) {
      EmptyControls(sights + [s]);
      NoPostTags(sights);
      NothingTracked(p, sights);
    }
  }

  lemma NothingTracked(p: Page, sights: seq<Sight>)
    requires RecordOK(p, sights) && p.forms.postForms == 0
    ensures p.select.control == ""
  {
  }

  lemma OpenControlRecord(p: Page, v: View, name: string, attributes: Attributes, sights: seq<Sight>)
    requires ViewOK(p, v) && CountOK(p.forms) && RecordOK(p, sights) && IsControl(name)
      && OpenTag(p, name, attributes).Pass?
    ensures RecordOK(OpenTag(p, name, attributes).value, sights + [Seen(v, name, attributes)])
  {
    hide KeysOK, ValuesOK, NamesOnce, AllSound, PostTags, Unsuitable, OpenSelect, OpenControls;
    hide InDisabledFieldset, SelectOK, Sensitive;
    hide TargetsOK, Overriding;
    EmptyNotSensitive();
    ViewAtTop(p, v);
    var s := Seen(v, name, attributes);
    OtherTargets(p.forms, OpenTag(p, name, attributes).value.forms, sights, s);
    var controls := OpenControls(p.select, p.forms.controls, name);
    OpenSelectOK(p.select, p.forms.controls, name, attributes);
    SameFieldsOK(p.forms.controls, controls, sights);
    PostTagsMore(sights, s);
    if s.Field() && s.Name() != "" {
      NewField(controls, sights, s, Control(name, ToLower(Attr(attributes, "type")), Attr(attributes, "value"), 0));
    } else {
      NoNewField(controls, sights, s);
    }
    Tracked(p, name, attributes);
  }

  lemma Tracked(p: Page, name: string, attributes: Attributes)
    requires |p.scopes| > 0 && SelectOK(p.select, p.forms.controls) && IsControl(name)
      && OpenTag(p, name, attributes).Pass?
    ensures var q := OpenTag(p, name, attributes).value; SelectOK(q.select, q.forms.controls)
  {
    hide ControlComplaint, Sensitive;
    OpenSelectOK(p.select, p.forms.controls, name, attributes);
  }

  lemma OpenOtherRecord(p: Page, v: View, name: string, attributes: Attributes, sights: seq<Sight>)
    requires ViewOK(p, v) && CountOK(p.forms) && RecordOK(p, sights)
    requires name != "form" && !IsControl(name) && OpenTag(p, name, attributes).Pass?
    ensures RecordOK(OpenTag(p, name, attributes).value, sights + [Seen(v, name, attributes)])
  {
    hide KeysOK, ValuesOK, NamesOnce, AllSound, PostTags, OpenSelect, OpenControls, SelectOK, TargetsOK;
    var s := Seen(v, name, attributes);
    OtherTargets(p.forms, OpenTag(p, name, attributes).value.forms, sights, s);
    OpenSelectOK(p.select, p.forms.controls, name, attributes);
    SameFieldsOK(p.forms.controls, OpenControls(p.select, p.forms.controls, name), sights);
    NoNewField(OpenControls(p.select, p.forms.controls, name), sights, s);
    PostTagsMore(sights, s);
  }

  lemma OpenRecord(p: Page, v: View, name: string, attributes: Attributes, sights: seq<Sight>)
    requires ViewOK(p, v) && CountOK(p.forms) && RecordOK(p, sights) && OpenTag(p, name, attributes).Pass?
    ensures RecordOK(OpenTag(p, name, attributes).value, sights + [Seen(v, name, attributes)])
  {
    hide OpenTag, RecordOK, ViewOK;
    if name == "form" {
      OpenFormRecord(p, v, attributes, sights);
    } else if IsControl(name) {
      OpenControlRecord(p, v, name, attributes, sights);
    } else {
      OpenOtherRecord(p, v, name, attributes, sights);
    }
  }

  lemma StepRecord(p: Page, v: View, token: Token, sights: seq<Sight>)
    requires ViewOK(p, v) && CountOK(p.forms) && RecordOK(p, sights) && Step(p, token).Pass?
    ensures RecordOK(Step(p, token).value, sights + Sighted(v, token))
  {
    hide OpenTag, CloseTag, KeysOK, ValuesOK, NamesOnce, AllSound, PostOK;
    ViewAtTop(p, v);
    assert sights + [] == sights;
    match token
    case Start(name, attributes) =>
      if name != "template" && !Top(p.scopes).inert { OpenRecord(p, v, name, attributes, sights); }
    case SelfClosing(name, attributes) =>
      if name != "template" && !Top(p.scopes).inert { OpenRecord(p, v, name, attributes, sights); }
    case End(name) =>
      if name != "template" && !Top(p.scopes).inert { CloseRecord(p, name, sights); }
    case _ =>
  }

  /** After any accepted stream the validator's scopes and records agree with the observer. */
  lemma {:induction false} RunWatched(tokens: seq<Token>)
    requires Run(BLANK, tokens).Pass?
    ensures var p, seen := Run(BLANK, tokens).value, Watch(tokens);
      var (v, sights) := seen; ViewOK(p, v) && CountOK(p.forms) && RecordOK(p, sights)
  {
    hide Step, Look, Sighted;
    if tokens == [] {
      NothingSeen();
    } else {
      var front, last := tokens[..|tokens| - 1], tokens[|tokens| - 1];
      RunWatched(front);
      var p := Run(BLANK, front).value;
      var (v, sights) := Watch(front);
      StepView(p, v, last);
      StepRecord(p, v, last, sights);
    }
  }

  lemma NothingSeen()
    ensures ViewOK(BLANK, AFAR) && CountOK(NO_FORMS) && RecordOK(BLANK, [])
  {
  }

  // ---- And nothing else is refused before the end ----

  lemma OpenTagPasses(p: Page, v: View, name: string, attributes: Attributes, sights: seq<Sight>)
    requires ViewOK(p, v) && CountOK(p.forms) && RecordOK(p, sights)
    requires var all := sights + [Seen(v, name, attributes)]; AllSound(all) && NamesOnce(all) && PostTags(all) <= 1
    ensures OpenTag(p, name, attributes).Pass?
  {
    hide KeysOK, ValuesOK, NamesOnce, AllSound, PostTags, Unsuitable, Duplicate, SelectOK, InDisabledFieldset;
    hide Sensitive;
    ViewAtTop(p, v);
    var s := Seen(v, name, attributes);
    LastSound(sights, s);
    PostTagsMore(sights, s);
    if s.Field() && Sensitive(s.Name()) {
      DuplicateClashes(p, sights, s);
    }
  }

  lemma LastSound(sights: seq<Sight>, s: Sight)
    requires AllSound(sights + [s])
    ensures Sound(s)
  {
    assert s in sights + [s];
  }

  /** A clash in the record is a clash among the tags. */
  lemma DuplicateClashes(p: Page, sights: seq<Sight>, s: Sight)
    requires RecordOK(p, sights) && s.Field() && Sensitive(s.Name())
    ensures Duplicate(OpenControls(p.select, p.forms.controls, s.tag), s.Name()) ==> !NamesOnce(sights + [s])
  {
    hide ValuesOK, NamesOnce, AllSound, TargetsOK, PostOK, Duplicate, KeysOK, CountOption, SameFields;
    CountKeeps(p.select, p.forms.controls);
    SameFieldsOK(p.forms.controls, OpenControls(p.select, p.forms.controls, s.tag), sights);
    RecordedClashes(OpenControls(p.select, p.forms.controls, s.tag), sights, s);
  }

  lemma RecordedClashes(controls: Controls, sights: seq<Sight>, s: Sight)
    requires KeysOK(controls, sights) && s.Field() && Sensitive(s.Name())
    ensures Duplicate(controls, s.Name()) ==> !NamesOnce(sights + [s])
  {
    hide SameName, LoginName, EqualFold, Sensitive, FormControl, IsControl;
    var all := sights + [s];
    if Duplicate(controls, s.Name()) {
      var existing :| existing in controls && EqualFold(existing, s.Name());
      assert FieldNamed(sights, existing);
      var i :| 0 <= i < |sights| && sights[i].Field() && sights[i].Name() == existing;
      assert all[i] == sights[i] && all[|sights|] == s;
    }
  }

  lemma StepPasses(p: Page, v: View, token: Token, sights: seq<Sight>)
    requires ViewOK(p, v) && CountOK(p.forms) && RecordOK(p, sights)
    requires var all := sights + Sighted(v, token); AllSound(all) && NamesOnce(all) && PostTags(all) <= 1
    ensures Step(p, token).Pass?
  {
    hide OpenTag, RecordOK, AllSound, NamesOnce, PostTags;
    ViewAtTop(p, v);
    if (token.Start? || token.SelfClosing?) && token.name != "template" && !Top(p.scopes).inert {
      OpenTagPasses(p, v, token.name, token.attributes, sights);
    }
  }

  lemma EarlierFine(sights: seq<Sight>, more: seq<Sight>)
    requires AllSound(sights + more) && NamesOnce(sights + more) && |more| <= 1
    ensures AllSound(sights) && NamesOnce(sights) && PostTags(sights) <= PostTags(sights + more)
  {
    hide SameName, LoginName;
    forall s | s in sights ensures Sound(s) {
      assert s in sights + more;
    }
    forall i, j | 0 <= i < j < |sights| && sights[i].Field() && sights[j].Field() && Sensitive(sights[j].Name())
      ensures !EqualFold(sights[i].Name(), sights[j].Name())
    {
      assert (sights + more)[i] == sights[i] && (sights + more)[j] == sights[j];
    }
    if more == [] {
      assert sights + more == sights;
    } else {
      assert sights + more == sights + [more[0]];
      PostTagsMore(sights, more[0]);
    }
  }

  /** The token loop refuses nothing exactly when every live tag is sound, no sensitive name of the POST form
      repeats and there is at most one POST form. */
  lemma {:induction false} LoopPassesIff(tokens: seq<Token>)
    ensures var sights := Watch(tokens).1;
      Run(BLANK, tokens).Pass? <==> AllSound(sights) && NamesOnce(sights) && PostTags(sights) <= 1
  {
    hide Step, Look, Sighted, AllSound, NamesOnce, PostTags, RecordOK, ViewOK;
    if Run(BLANK, tokens).Pass? {
      RunWatched(tokens);
      RecordSays(Run(BLANK, tokens).value, Watch(tokens).1);
    } else if tokens != [] {
      var front, last := tokens[..|tokens| - 1], tokens[|tokens| - 1];
      var (v, sights) := Watch(front);
      LoopPassesIff(front);
      if AllSound(Watch(tokens).1) && NamesOnce(Watch(tokens).1) && PostTags(Watch(tokens).1) <= 1 {
        OneSighted(v, last);
        EarlierFine(sights, Sighted(v, last));
        RunWatched(front);
        StepPasses(Run(BLANK, front).value, v, last, sights);
      }
    }
  }

  lemma OneSighted(v: View, token: Token)
    requires |v.levels| > 0
    ensures |Sighted(v, token)| <= 1
  {
  }

  lemma RecordSays(p: Page, sights: seq<Sight>)
    requires RecordOK(p, sights) && CountOK(p.forms)
    ensures AllSound(sights) && NamesOnce(sights) && PostTags(sights) <= 1
  {
  }

  // ---- Accepted pages ----

  ghost predicate HiddenField(sights: seq<Sight>, name: string, value: string) {
    exists s | s in sights ::
      && s.Field() && s.Name() == name && s.tag == "input"
      && OfType(s.attributes, "hidden") && Attr(s.attributes, "value") == value
  }

  ghost predicate PasswordField(sights: seq<Sight>) {
    exists s | s in sights ::
      s.Field() && s.Name() == "password" && s.tag == "input" && OfType(s.attributes, "password")
  }

  lemma FieldBehind(controls: Controls, sights: seq<Sight>, name: string) returns (s: Sight)
    requires KeysOK(controls, sights) && ValuesOK(controls, sights) && name in controls && Sensitive(name)
    ensures s in sights && s.Field() && s.Name() == name && HasValues(controls, s)
  {
    EmptyNotSensitive();
    assert FieldNamed(sights, name);
    s :| s in sights && s.Field() && s.Name() == name;
  }

  /** What acceptance asks of the live tags, all but the options of a tracked select. */
  ghost predicate LoginForm(sights: seq<Sight>, basePath: string, mode: Mode, requestID: string, csrf: string) {
    && AllSound(sights) && NamesOnce(sights) && PostTags(sights) == 1
    && (forall s | s in sights && s.PostTag() :: Attr(s.attributes, "action") == basePath + "/login")
    && (forall s | s in sights :: !Hijacks(sights, s))
    && HiddenField(sights, "authRequestID", requestID) && HiddenField(sights, "csrf", csrf)
    && (mode.PasswordMode? ==> FieldNamed(sights, "username") && PasswordField(sights))
    && (mode.SelectMode? ==> FieldNamed(sights, "identity"))
  }

  lemma LoginFormLoops(sights: seq<Sight>, basePath: string, mode: Mode, requestID: string, csrf: string)
    ensures LoginForm(sights, basePath, mode, requestID, csrf) ==>
      AllSound(sights) && NamesOnce(sights) && PostTags(sights) <= 1
  {
  }

  lemma FormPassesIff(p: Page, sights: seq<Sight>, basePath: string, mode: Mode, requestID: string, csrf: string)
    requires RecordOK(p, sights)
    ensures var f := p.forms.(controls := CountOption(p.select, p.forms.controls));
      FormComplaint(f, basePath, mode, requestID, csrf).Pass? <==>
        && LoginForm(sights, basePath, mode, requestID, csrf)
        && forall name | name in p.forms.controls :: !LacksOption(f.controls, name)
  {
    hide OverrideComplaint, KeysOK, ValuesOK, NamesOnce, AllSound, CountOption, Hijacks, TargetsOK;
    hide LacksOption, ModeComplaint, HiddenComplaint, HiddenField, PasswordField;
    hide FieldNamed, PostTags;
    var f := p.forms.(controls := CountOption(p.select, p.forms.controls));
    CountKeeps(p.select, p.forms.controls);
    SameFieldsOK(p.forms.controls, f.controls, sights);
    SameTargets(p.forms, f, sights);
    OverridesPassIff(f, sights);
    SensitiveNames();
    HiddenIff(f.controls, sights, "authRequestID", requestID);
    HiddenIff(f.controls, sights, "csrf", csrf);
    ModeIff(f.controls, sights, mode);
    SomePostTag(p.forms, sights, basePath);
  }

  lemma SensitiveNames()
    ensures Sensitive("authRequestID") && Sensitive("csrf") && Sensitive("password")
  {
  }

  /** With one POST tag, its action is the recorded one. */
  lemma SomePostTag(f: Forms, sights: seq<Sight>, basePath: string)
    requires PostOK(f, sights)
    ensures PostTags(sights) == 1 ==>
      (f.action == basePath + "/login" <==>
       forall s | s in sights && s.PostTag() :: Attr(s.attributes, "action") == basePath + "/login")
  {
    if PostTags(sights) == 1 {
      var s := FindPostTag(sights);
      assert Attr(s.attributes, "action") == f.action;
    }
  }

  lemma {:induction false} FindPostTag(sights: seq<Sight>) returns (s: Sight)
    requires PostTags(sights) > 0
    ensures s in sights && s.PostTag()
  {
    if sights[|sights| - 1].PostTag() {
      s := sights[|sights| - 1];
    } else {
      s := FindPostTag(sights[..|sights| - 1]);
    }
  }

  lemma HiddenIff(controls: Controls, sights: seq<Sight>, name: string, value: string)
    requires KeysOK(controls, sights) && ValuesOK(controls, sights) && Sensitive(name)
    ensures HiddenComplaint(controls, name, value).Pass? <==> HiddenField(sights, name, value)
  {
    if HiddenComplaint(controls, name, value).Pass? {
      var s := FieldBehind(controls, sights, name);
    }
    if HiddenField(sights, name, value) {
      var s :| s in sights && s.Field() && s.Name() == name && s.tag == "input"
               && ToLower(Attr(s.attributes, "type")) == "hidden" && Attr(s.attributes, "value") == value;
      assert HasValues(controls, s);
    }
  }

  lemma ModeIff(controls: Controls, sights: seq<Sight>, mode: Mode)
    requires KeysOK(controls, sights) && ValuesOK(controls, sights) && Sensitive("password")
    ensures ModeComplaint(controls, mode).Pass? <==>
      (mode.PasswordMode? ==> FieldNamed(sights, "username") && PasswordField(sights)) &&
      (mode.SelectMode? ==> FieldNamed(sights, "identity"))
  {
    if "password" in controls {
      var s := FieldBehind(controls, sights, "password");
    }
    if PasswordField(sights) {
      var s :| s in sights && s.Field() && s.Name() == "password" && s.tag == "input"
        && ToLower(Attr(s.attributes, "type")) == "password";
      assert HasValues(controls, s);
    }
  }

  /** A scope is in the POST form exactly when its form stack is the page's single POST form. */
  lemma InPostIffPostForm(tokens: seq<Token>)
    requires Run(BLANK, tokens).Pass?
    ensures var p := Run(BLANK, tokens).value;
      && p.forms.postForms <= 1
      && forall k | 0 <= k < |p.scopes| ::
           p.scopes[k].inPost <==> p.forms.postForm >= 0 && p.scopes[k].forms == [p.forms.postForm as nat]
  {
    RunWatched(tokens);
    var p, v := Run(BLANK, tokens).value, Watch(tokens).0;
    forall k | 0 <= k < |p.scopes|
      ensures p.scopes[k].inPost <==> p.forms.postForm >= 0 && p.scopes[k].forms == [p.forms.postForm as nat]
    {
      assert LevelOK(p.scopes[k], v.levels[k], p.forms);
    }
  }
}
