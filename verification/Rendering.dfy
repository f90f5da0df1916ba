/**
 * From a compiled plan to the modules that carry it. The runner's module is one template with
 * one marker; the native module has four, which are replaced one after the other, each
 * replacement running over everything that is already there.
 */
module Rendering {
  import opened Prelude
  import opened Contracts
  import opened Compiler
  import opened TextReplace
  import opened PlanText
  import opened Adapters

  const PLAN_MARKER := "__PLAN_JSON__"
  const PROPERTIES_MARKER := "__PROPERTIES_JSON__"
  const CLASS_MARKER := "__CLASS_NAME__"
  const DESCRIPTION_MARKER := "__DESCRIPTION__"

  // ---------------------------------------------------------------- the native template

  /** What lies around the four markers. */
  datatype Template = Template(
    head: string, afterPlan: string, afterProperties: string, afterClass: string, tail: string)

  /** What is put at the four places. */
  datatype Slots = Slots(plan: string, properties: string, className: string, description: string)

  predicate Unmarked(text: string) {
    && !Occurs(text, PLAN_MARKER) && !Occurs(text, PROPERTIES_MARKER)
    && !Occurs(text, CLASS_MARKER) && !Occurs(text, DESCRIPTION_MARKER)
  }

  /** No marker in the text itself, and none can arise where it meets a slot. */
  predicate Firm(text: string) {
    text != "" && !MarkerChar(text[0]) && !MarkerChar(text[|text| - 1]) && Unmarked(text)
  }

  predicate FirmTemplate(t: Template) {
    Firm(t.head) && Firm(t.afterPlan) && Firm(t.afterProperties) && Firm(t.afterClass) && Firm(t.tail)
  }

  function Assemble(t: Template, slots: Slots): string {
    t.head + slots.plan + t.afterPlan + slots.properties + t.afterProperties + slots.className
      + t.afterClass + slots.description + t.tail
  }

  const MARKERS := Slots(PLAN_MARKER, PROPERTIES_MARKER, CLASS_MARKER, DESCRIPTION_MARKER)

  /** _native_source: four replacements over the whole text. */
  function Render(t: Template, slots: Slots): string {
    var text := Replace(Assemble(t, MARKERS), PLAN_MARKER, slots.plan);
    var text' := Replace(text, PROPERTIES_MARKER, slots.properties);
    var text'' := Replace(text', CLASS_MARKER, slots.className);
    Replace(text'', DESCRIPTION_MARKER, slots.description)
  }

  function ReplaceEach(slots: Slots, m: string, by_: string): Slots
    requires m != ""
  {
    Slots(Replace(slots.plan, m, by_), Replace(slots.properties, m, by_), Replace(slots.className, m, by_),
          Replace(slots.description, m, by_))
  }

  /** What the later replacements make of what the earlier ones put in. */
  function Rewritten(slots: Slots): Slots {
    var plan := Replace(slots.plan, PROPERTIES_MARKER, slots.properties);
    var (plan', properties') :=
      (Replace(plan, CLASS_MARKER, slots.className), Replace(slots.properties, CLASS_MARKER, slots.className));
    Slots(Replace(plan', DESCRIPTION_MARKER, slots.description),
          Replace(properties', DESCRIPTION_MARKER, slots.description),
          Replace(slots.className, DESCRIPTION_MARKER, slots.description), slots.description)
  }

  // ---------------------------------------------------------------- the runner's template

  /** generate_runner_adapter: one replacement. */
  function RenderRunner(head: string, tail: string, plan: string): string {
    Replace(head + PLAN_MARKER + tail, PLAN_MARKER, plan)
  }

  // ---------------------------------------------------------------- the modules at work

  /** Python reading a generated module: what the plan's text and the property list's text stand for, if it loads. */
  datatype Python = Python(
    plan: string -> Option<Plan>,
    properties: string -> Option<seq<CompiledParameter>>,
    identifier: string -> bool)

  /** The texts that are put in for a contract. */
  function NativeSlots(form: Form, plan: Plan, className: string, description: string): Slots {
    Slots(PlanLiteral(form, plan), PropertiesLiteral(form, plan.parameters), className, Repr(form, description))
  }

  function Loaded(py: Python, slots: Slots): Option<(Plan, seq<CompiledParameter>)> {
    var (plan, properties) := (py.plan(slots.plan), py.properties(slots.properties));
    if plan.None? || properties.None? || !py.identifier(slots.className) then None
    else Some((plan.value, properties.value))
  }

  /** The rendered native processor on a flow file. */
  function NativeProcessor(w: World, py: Python, slots: Slots, content: Value, metadata: map<string, Value>,
                           property: string -> Option<string>): Result<NativeAnswer, Failure> {
    var loaded := Loaded(py, Rewritten(slots));
    if loaded.None? then Err(NotLoaded)
    else Transform(w, loaded.value.0, loaded.value.1, content, metadata, property)
  }

  /** The rendered entry module of a release, served by the runner. */
  function ServedModule(w: World, py: Python, literal: string, release: Release, content: seq<Byte>,
                        attributes: map<string, Value>, parameters: map<string, Value>): Result<Answer, Failure> {
    var plan := py.plan(literal);
    if plan.None? then Err(NotLoaded)
    else Served(w, plan.value, release, content, attributes, parameters)
  }

  /** Python reads the texts of this plan as what they were written from. */
  predicate Reads(py: Python, form: Form, plan: Plan) {
    && py.plan(PlanLiteral(form, plan)) == Some(plan)
    && py.properties(PropertiesLiteral(form, plan.parameters)) == Some(plan.parameters)
  }

  // ---------------------------------------------------------------- rendering is slot by slot

  lemma MarkersAreMarkers()
    ensures Marker(PLAN_MARKER) && Marker(PROPERTIES_MARKER) && Marker(CLASS_MARKER) && Marker(DESCRIPTION_MARKER)
  {
  }

  /** Only at its very beginning can a marker hold another, for only there two underscores meet a capital. */
  lemma {:induction false} OnlyAtStart(text: string, m: string)
    requires Marker(m)
    requires forall i :: 0 <= i < |text| - 2 ==> !(text[i] == '_' && text[i + 1] == '_' && text[i + 2] != '_')
    ensures !Occurs(text, m)
    decreases |text|
  {
    if |text| >= |m| {
      PrefixChars(text, m);
      assert text[0] == '_' && text[1] == '_' ==> text[2] == '_';
      var rest := text[1..];
      assert forall i :: 0 <= i < |rest| - 2 ==> rest[i] == text[i + 1];
      assert forall i :: 0 <= i < |rest| ==> rest[i] == text[i + 1];
      OnlyAtStart(rest, m);
    }
  }

  /** After its start two underscores meet nothing but another or the end. */
  predicate NoneInside(text: string) {
    forall i :: 1 <= i < |text| - 2 ==> !(text[i] == '_' && text[i + 1] == '_' && text[i + 2] != '_')
  }

  lemma NoneInsideMarkers()
    ensures NoneInside(PROPERTIES_MARKER) && NoneInside(CLASS_MARKER) && NoneInside(DESCRIPTION_MARKER)
  {
  }

  lemma NoMarkerWithin(text: string, m: string)
    requires Marker(m) && Marker(text)
    requires |m| > 3 && |text| > 3 && (text[2] != m[2] || text[3] != m[3])
    requires NoneInside(text)
    ensures !Occurs(text, m)
  {
    if |text| >= |m| {
      PrefixChars(text, m);
      var rest := text[1..];
      assert forall i :: 0 <= i < |rest| ==> rest[i] == text[i + 1];
      OnlyAtStart(rest, m);
    }
  }

  lemma MarkersApart()
    ensures !Occurs(PROPERTIES_MARKER, PLAN_MARKER) && !Occurs(CLASS_MARKER, PLAN_MARKER)
    ensures !Occurs(DESCRIPTION_MARKER, PLAN_MARKER) && !Occurs(CLASS_MARKER, PROPERTIES_MARKER)
    ensures !Occurs(DESCRIPTION_MARKER, PROPERTIES_MARKER) && !Occurs(DESCRIPTION_MARKER, CLASS_MARKER)
  {
    hide Marker, NoneInside, Occurs;
    MarkersAreMarkers();
    NoneInsideMarkers();
    NoMarkerWithin(PROPERTIES_MARKER, PLAN_MARKER);
    NoMarkerWithin(CLASS_MARKER, PLAN_MARKER);
    NoMarkerWithin(DESCRIPTION_MARKER, PLAN_MARKER);
    NoMarkerWithin(CLASS_MARKER, PROPERTIES_MARKER);
    NoMarkerWithin(DESCRIPTION_MARKER, PROPERTIES_MARKER);
    NoMarkerWithin(DESCRIPTION_MARKER, CLASS_MARKER);
  }

  lemma ReplaceItself(m: string, by_: string)
    requires m != ""
    ensures Replace(m, m, by_) == by_
  {
    assert m[|m|..] == "";
    assert by_ + "" == by_;
  }

  /** Replacing around a firm piece of template. */
  lemma FirmJoin(slot: string, firm: string, rest: string, m: string, by_: string)
    requires Marker(m) && Firm(firm) && !Occurs(firm, m)
    ensures Replace(slot + firm + rest, m, by_) == Replace(slot, m, by_) + firm + Replace(rest, m, by_)
  {
    assert slot + firm + rest == slot + (firm + rest);
    ReplaceJoin(slot, firm + rest, m, by_);
    ReplaceJoin(firm, rest, m, by_);
    ReplaceNothing(firm, m, by_);
  }

  lemma ReplaceAssembled(t: Template, slots: Slots, m: string, by_: string)
    requires FirmTemplate(t) && Marker(m)
    requires m in {PLAN_MARKER, PROPERTIES_MARKER, CLASS_MARKER, DESCRIPTION_MARKER}
    ensures Replace(Assemble(t, slots), m, by_) == Assemble(t, ReplaceEach(slots, m, by_))
  {
    hide Replace, Marker, Occurs, Assemble;
    var (e, tail) := (ReplaceEach(slots, m, by_), slots.description + t.tail + "");
    AssembleNested(t, slots);
    AssembleNested(t, e);
    FirmJoin(slots.description, t.tail, "", m, by_);
    FirmJoin(slots.className, t.afterClass, tail, m, by_);
    FirmJoin(slots.properties, t.afterProperties, slots.className + t.afterClass + tail, m, by_);
    var fromProperties := slots.properties + t.afterProperties + (slots.className + t.afterClass + tail);
    FirmJoin(slots.plan, t.afterPlan, fromProperties, m, by_);
    FirmJoin("", t.head, slots.plan + t.afterPlan + fromProperties, m, by_);
    EmptyStays(m, by_);
  }

  /** The same text, grouped from the right. */
  lemma AssembleNested(t: Template, s: Slots)
    ensures Assemble(t, s)
      == "" + t.head + (s.plan + t.afterPlan + (s.properties + t.afterProperties + (s.className + t.afterClass
           + (s.description + t.tail + ""))))
  {
    var (a, b, c) := (s.plan + t.afterPlan, s.properties + t.afterProperties, s.className + t.afterClass);
    var d := s.description + t.tail;
    assert Assemble(t, s) == t.head + a + b + c + d;
    assert t.head + a + b + c + d == t.head + (a + (b + (c + d)));
    assert d + "" == d && "" + t.head == t.head;
  }

  lemma EmptyStays(m: string, by_: string)
    requires m != ""
    ensures Replace("", m, by_) == ""
  {
  }

  /** The rendered module is the template with the rewritten texts at the four places. */
  lemma RenderIsRewritten(t: Template, slots: Slots)
    requires FirmTemplate(t)
    ensures Render(t, slots) == Assemble(t, Rewritten(slots))
  {
    hide Replace, Assemble, FirmTemplate, Marker;
    MarkersAreMarkers();
    ReplaceAssembled(t, MARKERS, PLAN_MARKER, slots.plan);
    FirstRound(slots.plan);
    var first := Slots(slots.plan, PROPERTIES_MARKER, CLASS_MARKER, DESCRIPTION_MARKER);
    ReplaceAssembled(t, first, PROPERTIES_MARKER, slots.properties);
    SecondRound(slots.plan, slots.properties);
    var second := ReplaceEach(first, PROPERTIES_MARKER, slots.properties);
    ReplaceAssembled(t, second, CLASS_MARKER, slots.className);
    ThirdRound(slots.className);
    var third := ReplaceEach(second, CLASS_MARKER, slots.className);
    ReplaceAssembled(t, third, DESCRIPTION_MARKER, slots.description);
    ReplaceItself(DESCRIPTION_MARKER, slots.description);
  }

  lemma FirstRound(plan: string)
    ensures ReplaceEach(MARKERS, PLAN_MARKER, plan)
      == Slots(plan, PROPERTIES_MARKER, CLASS_MARKER, DESCRIPTION_MARKER)
  {
    hide Replace, Occurs;
    MarkersApart();
    ReplaceItself(PLAN_MARKER, plan);
    ReplaceNothing(PROPERTIES_MARKER, PLAN_MARKER, plan);
    ReplaceNothing(CLASS_MARKER, PLAN_MARKER, plan);
    ReplaceNothing(DESCRIPTION_MARKER, PLAN_MARKER, plan);
  }

  lemma SecondRound(plan: string, properties: string)
    ensures ReplaceEach(Slots(plan, PROPERTIES_MARKER, CLASS_MARKER, DESCRIPTION_MARKER), PROPERTIES_MARKER, properties)
      == Slots(Replace(plan, PROPERTIES_MARKER, properties), properties, CLASS_MARKER, DESCRIPTION_MARKER)
  {
    hide Replace, Occurs;
    MarkersApart();
    ReplaceItself(PROPERTIES_MARKER, properties);
    ReplaceNothing(CLASS_MARKER, PROPERTIES_MARKER, properties);
    ReplaceNothing(DESCRIPTION_MARKER, PROPERTIES_MARKER, properties);
  }

  lemma ThirdRound(className: string)
    ensures Replace(CLASS_MARKER, CLASS_MARKER, className) == className
    ensures Replace(DESCRIPTION_MARKER, CLASS_MARKER, className) == DESCRIPTION_MARKER
  {
    hide Replace, Occurs;
    MarkersApart();
    ReplaceItself(CLASS_MARKER, className);
    ReplaceNothing(DESCRIPTION_MARKER, CLASS_MARKER, className);
  }

  /** The runner's module always carries the plan's text as it is. */
  lemma RunnerCarriesPlan(head: string, tail: string, plan: string)
    requires Firm(head) && Firm(tail)
    ensures RenderRunner(head, tail, plan) == head + plan + tail
  {
    hide Replace, Marker;
    MarkersAreMarkers();
    FirmJoin("", head, PLAN_MARKER + tail + "", PLAN_MARKER, plan);
    FirmJoin(PLAN_MARKER, tail, "", PLAN_MARKER, plan);
    ReplaceItself(PLAN_MARKER, plan);
    EmptyStays(PLAN_MARKER, plan);
    assert head + PLAN_MARKER + tail == "" + head + (PLAN_MARKER + tail + "");
  }

  // ---------------------------------------------------------------- when a text survives

  /**
   * A text put in first comes out as it went in exactly when none of the markers that are still
   * to be replaced occurs in it; or the class is named like its own marker, which changes nothing.
   */
  lemma SurvivesIff(text: string, slots: Slots)
    requires Quotes(slots.properties) > 0 && Quotes(slots.description) > 0
    ensures Rewritten(slots.(plan := text)).plan == text <==>
      && !Occurs(text, PROPERTIES_MARKER) && !Occurs(text, DESCRIPTION_MARKER)
      && (!Occurs(text, CLASS_MARKER) || slots.className == CLASS_MARKER)
  {
    hide Replace, Occurs, Marker;
    MarkersAreMarkers();
    var first := Replace(text, PROPERTIES_MARKER, slots.properties);
    var second := Replace(first, CLASS_MARKER, slots.className);
    QuotesReplace(text, PROPERTIES_MARKER, slots.properties);
    QuotesReplace(first, CLASS_MARKER, slots.className);
    QuotesReplace(second, DESCRIPTION_MARKER, slots.description);
    ReplaceChanges(text, PROPERTIES_MARKER, slots.properties);
    ReplaceChanges(first, CLASS_MARKER, slots.className);
    ReplaceChanges(second, DESCRIPTION_MARKER, slots.description);
    NoQuotes(PROPERTIES_MARKER) by { MarkerChars(PROPERTIES_MARKER); }
    NoQuotes(DESCRIPTION_MARKER) by { MarkerChars(DESCRIPTION_MARKER); }
  }

  lemma MarkerChars(m: string)
    requires Marker(m)
    ensures forall i :: 0 <= i < |m| ==> MarkerChar(m[i])
  {
  }

  /** The property list, which is put in second, has only the last two replacements to survive. */
  lemma PropertiesSurvive(slots: Slots)
    requires !Occurs(slots.properties, DESCRIPTION_MARKER)
    requires !Occurs(slots.properties, CLASS_MARKER) || slots.className == CLASS_MARKER
    ensures Rewritten(slots).properties == slots.properties
  {
    hide Replace, Occurs;
    ReplaceNothing(slots.properties, CLASS_MARKER, slots.className);
    ReplaceNothing(slots.properties, DESCRIPTION_MARKER, slots.description);
  }
}
