/** When the native module carries the compiled plan, what follows for the two backends, and where it does not. */
module RenderingTheorems {
  import opened Prelude
  import opened Names
  import opened Contracts
  import opened Compiler
  import opened CompilerTheorems
  import opened Adapters
  import opened AdapterTheorems
  import opened ContractMeaning
  import opened TextReplace
  import opened PlanText
  import opened PlanStrings
  import opened Rendering

  // ---------------------------------------------------------------- when the plan survives

  lemma ReprIsQuoted(form: Form, text: string)
    ensures Quotes(Repr(form, text)) > 0
  {
    var r := Repr(form, text);
    assert r == [r[0]] + r[1..] && IsQuote(r[0]);
  }

  /** No string of the plan holds a marker that is replaced after the plan is in place. */
  predicate Carried(form: Form, plan: Plan, className: string) {
    var pieces := PlanPieces(form, plan);
    && Free(pieces, PROPERTIES_MARKER) && Free(pieces, DESCRIPTION_MARKER)
    && (Free(pieces, CLASS_MARKER) || className == CLASS_MARKER)
  }

  /** The rendered native module carries the plan's text unchanged exactly then. */
  lemma PlanSurvivesIff(form: Form, plan: Plan, className: string, description: string)
    ensures Rewritten(NativeSlots(form, plan, className, description)).plan == PlanLiteral(form, plan)
      <==> Carried(form, plan, className)
  {
    hide Rewritten, PlanPieces, Free, Write, Repr, Occurs, Marker;
    MarkersAreMarkers();
    var (slots, pieces) := (NativeSlots(form, plan, className, description), PlanPieces(form, plan));
    ReprIsQuoted(form, Write(ParametersPieces(form, plan.parameters)));
    ReprIsQuoted(form, description);
    SurvivesIff(slots.plan, slots);
    LiteralOccurs(form, pieces, PROPERTIES_MARKER);
    LiteralOccurs(form, pieces, DESCRIPTION_MARKER);
    LiteralOccurs(form, pieces, CLASS_MARKER);
  }

  /** Then all four texts come out as they went in, if the class name does not hold the last marker. */
  lemma AllSurvive(form: Form, plan: Plan, className: string, description: string)
    requires Carried(form, plan, className) && !Occurs(className, DESCRIPTION_MARKER)
    ensures var slots := NativeSlots(form, plan, className, description); Rewritten(slots) == slots
  {
    hide PlanPieces, Free, Write, Repr, Occurs, Marker, Replace, ParametersPieces;
    MarkersAreMarkers();
    var slots := NativeSlots(form, plan, className, description);
    PlanSurvivesIff(form, plan, className, description);
    PropertiesWithinPlan(form, plan, DESCRIPTION_MARKER);
    LiteralOccurs(form, ParametersPieces(form, plan.parameters), DESCRIPTION_MARKER);
    LiteralOccurs(form, ParametersPieces(form, plan.parameters), CLASS_MARKER);
    if className != CLASS_MARKER { PropertiesWithinPlan(form, plan, CLASS_MARKER); }
    PropertiesSurvive(slots);
    ReplaceNothing(className, DESCRIPTION_MARKER, slots.description);
  }

  /** The rendered module then is the template with the compiled plan and its property list in it. */
  lemma NativeModuleCarriesPlan(t: Template, form: Form, plan: Plan, className: string, description: string)
    requires FirmTemplate(t) && Carried(form, plan, className) && !Occurs(className, DESCRIPTION_MARKER)
    ensures var slots := NativeSlots(form, plan, className, description); Render(t, slots) == Assemble(t, slots)
  {
    hide Render, Assemble, Rewritten, NativeSlots, Carried, FirmTemplate, Occurs;
    RenderIsRewritten(t, NativeSlots(form, plan, className, description));
    AllSurvive(form, plan, className, description);
  }

  /** A contract and a callable without markers in their strings give a plan that is carried. */
  predicate MarkerFree(c: Contract, callable: Callable) {
    && ContractFree(c, PROPERTIES_MARKER) && CallableFree(callable, PROPERTIES_MARKER)
    && ContractFree(c, CLASS_MARKER) && CallableFree(callable, CLASS_MARKER)
    && ContractFree(c, DESCRIPTION_MARKER) && CallableFree(callable, DESCRIPTION_MARKER)
  }

  lemma MarkerFreeIsCarried(form: Form, c: Contract, catalog: Catalog, className: string)
    requires ValidContract(c) && Compile(c, catalog).Ok? && Selected(c, catalog).Ok?
    requires MarkerFree(c, Selected(c, catalog).value)
    ensures Carried(form, Compile(c, catalog).value, className)
  {
    hide Compile, Selected, ValidContract, ContractFree, CallableFree, Free, PlanPieces;
    PlanIsFree(form, c, catalog, PROPERTIES_MARKER);
    PlanIsFree(form, c, catalog, CLASS_MARKER);
    PlanIsFree(form, c, catalog, DESCRIPTION_MARKER);
  }

  // ---------------------------------------------------------------- the backends

  /** A class name that Python accepts and that the last replacement leaves alone. */
  predicate GoodClass(py: Python, className: string) {
    py.identifier(className) && !Occurs(className, DESCRIPTION_MARKER)
  }

  /** The rendered native processor interprets the compiled plan. */
  lemma NativeRunsPlan(w: World, py: Python, form: Form, plan: Plan, className: string, description: string,
                       content: Value, metadata: map<string, Value>, property: string -> Option<string>)
    requires Carried(form, plan, className) && GoodClass(py, className) && Reads(py, form, plan)
    ensures var slots := NativeSlots(form, plan, className, description);
      && Loaded(py, Rewritten(slots)) == Some((plan, plan.parameters))
      && NativeProcessor(w, py, slots, content, metadata, property)
           == Transform(w, plan, plan.parameters, content, metadata, property)
  {
    hide Carried, Rewritten, PlanLiteral, PropertiesLiteral, Transform, Occurs;
    AllSurvive(form, plan, className, description);
  }

  /**
   * For every contract that compiles and publishes and whose plan is carried, the rendered
   * runner module behind its filters and the rendered native processor give the same content
   * and attributes, or both fail.
   */
  lemma BackendsAgree(w: World, py: Python, form: Form, c: Contract, catalog: Catalog, className: string,
                      description: string, content: Value, metadata: map<string, Value>,
                      property: string -> Option<string>, parameters: map<string, Value>)
    requires ValidContract(c) && Compile(c, catalog).Ok? && "" !in c.output.metadata
    requires (content.Bytes? || content.ByteArray?) && SameParameters(Compile(c, catalog).value, property, parameters)
    requires Carried(form, Compile(c, catalog).value, className) && GoodClass(py, className)
    requires Reads(py, form, Compile(c, catalog).value)
    ensures var plan := Compile(c, catalog).value;
      var (literal, slots) := (PlanLiteral(form, plan), NativeSlots(form, plan, className, description));
      && Publish(plan).Some?
      && Agree(ServedModule(w, py, literal, Publish(plan).value, content.bytes, Plain(metadata), parameters),
               Read(w, content.bytes, NativeProcessor(w, py, slots, content, metadata, property)))
  {
    hide Compile, ValidContract, Served, Transform, Read, Publish, SameParameters, Carried, NativeProcessor;
    hide NativeSlots, PlanLiteral, PropertiesLiteral, GoodClass;
    FilteredAdaptersAgree(w, c, catalog, content, metadata, property, parameters);
    NativeRunsPlan(w, py, form, Compile(c, catalog).value, className, description, content, metadata, property);
  }

  /**
   * Whatever the input, the rendered runner module, and the rendered native one if the plan is
   * carried, either reports an input it cannot decode or misses, or passes every required
   * parameter and no unknown one, to the constructor and to the callable.
   */
  lemma CallsAreWellFormed(w: World, py: Python, form: Form, c: Contract, catalog: Catalog, className: string,
                           description: string, inputs: Inputs)
    requires ValidContract(c) && Compile(c, catalog).Ok? && Reads(py, form, Compile(c, catalog).value)
    ensures Selected(c, catalog).Ok? && Supported(Selected(c, catalog).value, catalog)
    ensures py.plan(PlanLiteral(form, Compile(c, catalog).value)).Some?
    ensures var (plan, callable) :=
        (py.plan(PlanLiteral(form, Compile(c, catalog).value)).value, Selected(c, catalog).value);
      && WellFormed(RunnerKwargs(w, plan.constructorArguments, inputs), ConstructorDefs(callable, catalog))
      && WellFormed(RunnerKwargs(w, plan.arguments, inputs), callable.parameters)
    ensures Carried(form, Compile(c, catalog).value, className) && GoodClass(py, className) ==>
      var loaded := Loaded(py, Rewritten(NativeSlots(form, Compile(c, catalog).value, className, description)));
      var callable := Selected(c, catalog).value;
      && loaded.Some?
      && WellFormed(NativeKwargs(w, loaded.value.0.constructorArguments, inputs), ConstructorDefs(callable, catalog))
      && WellFormed(NativeKwargs(w, loaded.value.0.arguments, inputs), callable.parameters)
  {
    hide Compile, Selected, ValidContract, Carried, GoodClass, WellFormed, RunnerKwargs, NativeKwargs, Rewritten;
    hide PlanLiteral, PropertiesLiteral, NativeSlots, Transform, Loaded;
    PlanParts(c, catalog);
    ReadySupports(c, Selected(c, catalog).value, catalog);
    PlanCallsAreWellFormed(w, c, catalog, inputs);
    var plan := Compile(c, catalog).value;
    if Carried(form, plan, className) && GoodClass(py, className) {
      NativeRunsPlan(w, py, form, plan, className, description, Nil, map[], _ => None);
    }
  }

  lemma ReadySupports(c: Contract, callable: Callable, catalog: Catalog)
    requires Ready(c, callable, catalog)
    ensures Supported(callable, catalog)
  {
  }
}
