/** A plan string that holds the class marker: the native module carries another plan than the runner's. */
module ClassNameLeak {
  import opened Prelude
  import opened Names
  import opened Contracts
  import opened Compiler
  import opened CompilerTheorems
  import opened Adapters
  import opened AdapterTheorems
  import opened TextReplace
  import opened PlanText
  import opened PlanStrings
  import opened Rendering
  import opened RenderingTheorems

  // ---------------------------------------------------------------- replacing in pieces

  lemma SubstJoin(a: Pieces, b: Pieces, m: string, by_: string)
    requires m != ""
    ensures Subst(a + b, m, by_) == Subst(a, m, by_) + Subst(b, m, by_)
  {
  }

  lemma SubstFree(pieces: Pieces, m: string, by_: string)
    requires m != "" && Free(pieces, m)
    ensures Subst(pieces, m, by_) == pieces
  {
    forall i | 0 <= i < |pieces| && pieces[i].Quoted? ensures Replace(pieces[i].text, m, by_) == pieces[i].text {
      ReplaceNothing(pieces[i].text, m, by_);
    }
  }

  lemma SubstMark(mark: CleanText, m: string, by_: string)
    requires m != ""
    ensures Subst([Mark(mark)], m, by_) == [Mark(mark)]
  {
  }

  /** The parts of the second list are those of the first after replacing. */
  predicate EachSubst(parts: seq<Pieces>, parts': seq<Pieces>, m: string, by_: string)
    requires m != ""
  {
    |parts| == |parts'| && forall i :: 0 <= i < |parts| ==> Subst(parts[i], m, by_) == parts'[i]
  }

  lemma {:induction false} SubstSeparated(parts: seq<Pieces>, parts': seq<Pieces>, m: string, by_: string)
    requires m != "" && EachSubst(parts, parts', m, by_)
    ensures Subst(Separated(parts), m, by_) == Separated(parts')
    decreases |parts|
  {
    hide Subst;
    if parts == [] {
      SubstFree([], m, by_);
    } else if |parts| > 1 {
      SubstSeparated(parts[1..], parts'[1..], m, by_);
      SubstMark(",", m, by_);
      SubstJoin(parts[0], [Mark(",")], m, by_);
      SubstJoin(parts[0] + [Mark(",")], Separated(parts[1..]), m, by_);
    }
  }

  lemma SubstObj(fields: seq<Pieces>, fields': seq<Pieces>, m: string, by_: string)
    requires m != "" && EachSubst(fields, fields', m, by_)
    ensures Subst(Obj(fields), m, by_) == Obj(fields')
  {
    hide Subst, EachSubst;
    SubstSeparated(fields, fields', m, by_);
    SubstMark("{", m, by_);
    SubstMark("}", m, by_);
    SubstJoin([Mark("{")], Separated(fields), m, by_);
    SubstJoin([Mark("{")] + Separated(fields), [Mark("}")], m, by_);
  }

  lemma SubstField(name: FieldName, value: Pieces, m: string, by_: string)
    requires m != ""
    ensures Subst(Field(name, value), m, by_) == Field(name, Subst(value, m, by_))
  {
  }

  lemma SubstEntry(key: string, value: Pieces, m: string, by_: string)
    requires m != "" && !Occurs(key, m)
    ensures Subst(Entry(key, value), m, by_) == Entry(key, Subst(value, m, by_))
  {
    ReplaceNothing(key, m, by_);
  }

  // ---------------------------------------------------------------- what the native module carries

  lemma BeginsWithArguments(form: Form, plan: Plan)
    ensures '"' in Write(PlanPieces(form, plan))
  {
    hide BindingsPieces, RestPieces, Separated;
    var pieces := PlanPieces(form, plan);
    assert pieces[0] == Mark("{") && pieces[1].Mark? && pieces[1].clean[0] == '"' by {
      BeginsWithField(ARGUMENTS, BindingsPieces(form, plan.arguments), RestPieces(form, plan));
    }
    assert Write(pieces) == pieces[0].clean + (pieces[1].clean + Write(pieces[1..][1..]));
    assert Write(pieces)[1] == '"';
  }

  lemma BeginsWithField(name: FieldName, value: Pieces, rest: seq<Pieces>)
    ensures var pieces := Obj([Field(name, value)] + rest);
      |pieces| > 1 && pieces[0] == Mark("{") && pieces[1] == Field(name, value)[0]
  {
  }

  /**
   * The native module carries the plan with its class name for the marker in every string, if
   * nothing else is replaced in it; the runner's module carries the plan as it is.
   */
  lemma ClassNameReplacesMarker(form: Form, plan: Plan, plan': Plan, className: string, description: string)
    requires Subst(PlanPieces(form, plan), CLASS_MARKER, className) == PlanPieces(form, plan')
    requires Free(PlanPieces(form, plan), PROPERTIES_MARKER) && Free(PlanPieces(form, plan'), DESCRIPTION_MARKER)
    requires PlainName(className)
    ensures Rewritten(NativeSlots(form, plan, className, description)).plan == PlanLiteral(form, plan')
  {
    hide PlanPieces, Free, Write, Repr, Occurs, Marker, Replace, Subst;
    MarkersAreMarkers();
    var slots := NativeSlots(form, plan, className, description);
    LiteralOccurs(form, PlanPieces(form, plan), PROPERTIES_MARKER);
    ReplaceNothing(slots.plan, PROPERTIES_MARKER, slots.properties);
    BeginsWithArguments(form, plan);
    BeginsWithArguments(form, plan');
    LiteralReplace(form, PlanPieces(form, plan), CLASS_MARKER, className);
    LiteralOccurs(form, PlanPieces(form, plan'), DESCRIPTION_MARKER);
    ReplaceNothing(PlanLiteral(form, plan'), DESCRIPTION_MARKER, slots.description);
  }

  // ---------------------------------------------------------------- an operator that answers its constant

  function EchoContract(): Contract {
    Contract("op", "op", "", Origin("r", ".", None), "m:f", [],
             [("x", Binding(Constant, TextCodec, None, None, Text(CLASS_MARKER)))],
             Output(OutputValue(Return, [], TextCodec, Nil), map[], KeepOriginal))
  }

  function EchoCallable(): Callable {
    Callable("m:f", "m", "f", Function, None, None, false, 0, [Parameter("x", KeywordOnly, true)])
  }

  function EchoCatalog(): Catalog {
    Catalog("r", ".", [EchoCallable()], [], false)
  }

  function EchoBinding(text: string): CompiledBinding {
    CompiledBinding(Constant, TextCodec, true, None, None, Text(text), false, Nil)
  }

  /** The compiled plan, with any text for the constant. */
  function EchoPlan(text: string): Plan {
    Plan(EchoContract().origin, Target(Function, "m", "f", None, None, None), map[], map["x" := EchoBinding(text)],
         EchoContract().output, [], [], [], DigestOf(EchoContract()))
  }

  lemma EchoSelected()
    ensures ValidContract(EchoContract()) && Selected(EchoContract(), EchoCatalog()) == Ok(EchoCallable())
  {
    var (c, parameters) := (EchoContract(), EchoCallable().parameters);
    assert NamesOf(c.constructorArguments) == {};
    assert c.arguments[0].0 == "x" && "x" in NamesOf(c.arguments);
    assert EchoCatalog().functions + AllMethods([]) == [EchoCallable()];
    assert parameters[0].name == "x" && "x" in Named(parameters);
    assert Best([EchoCallable()], "m:f") == Some(EchoCallable());
  }

  lemma EchoCompiles()
    ensures ValidContract(EchoContract())
    ensures Compile(EchoContract(), EchoCatalog()) == Ok(EchoPlan(CLASS_MARKER))
  {
    hide Selected, DigestOf;
    EchoSelected();
    var (c, defs) := (EchoContract(), ByName(EchoCallable().parameters));
    assert "x" in Named(EchoCallable().parameters) by { assert EchoCallable().parameters[0].name == "x"; }
    assert c.arguments[..0] == [];
    assert Payloads(defs, c.arguments) == map["x" := EchoBinding(CLASS_MARKER)];
    assert MetadataKeys(map[]) == {} && MetadataKeys(map["x" := EchoBinding(CLASS_MARKER)]) == {};
    assert c.output.metadata.Keys == {};
  }

  lemma SortedOne(name: string)
    ensures Sorted({name}) == [name]
  {
    assert Sorted({name})[0] in Sorted({name});
  }

  // ---------------------------------------------------------------- its text

  function EchoFields(text: string): seq<Pieces> {
    [Field(CODEC, Word("text")), Field(CONSTANT, [Quoted(text)]), Field(METADATA_KEY, Null()),
     Field(PARAMETER_KEY, Null()), Field(REQUIRED, Truth(true)), Field(SOURCE, Word("constant"))]
  }

  lemma EchoBindingPieces(form: Form, text: string)
    ensures BindingPieces(form, EchoBinding(text)) == Obj(EchoFields(text))
  {
    hide Obj, Field;
    var b := EchoBinding(text);
    var (first, last) := ([Field(CODEC, Word("text")), Field(CONSTANT, [Quoted(text)])],
      [Field(METADATA_KEY, Null()), Field(PARAMETER_KEY, Null()), Field(REQUIRED, Truth(true)),
       Field(SOURCE, Word("constant"))]);
    assert DefaultPieces(form, b) == [];
    assert BindingPieces(form, b) == Obj(first + [] + last);
    assert EchoFields(text) == first + [] + last;
  }

  lemma EchoBindingSubst(form: Form, text: string, by_: string)
    requires Replace(text, CLASS_MARKER, by_) == by_
    ensures Subst(BindingPieces(form, EchoBinding(text)), CLASS_MARKER, by_) == BindingPieces(form, EchoBinding(by_))
  {
    hide Replace;
    EchoBindingPieces(form, text);
    EchoBindingPieces(form, by_);
    assert Subst([Quoted(text)], CLASS_MARKER, by_) == [Quoted(by_)];
    SubstField(CONSTANT, [Quoted(text)], CLASS_MARKER, by_);
    SubstObj(EchoFields(text), EchoFields(by_), CLASS_MARKER, by_);
  }

  lemma OneMember<T>(key: string, v: T, write: T -> Pieces)
    ensures MapPieces(map[key := v], write) == Obj([Entry(key, write(v))])
  {
    var keys := Sorted(map[key := v].Keys);
    SortedOne(key);
    assert map[key := v].Keys == {key};
    assert seq(1, i requires 0 <= i < 1 => Entry(keys[i], write(map[key := v][keys[i]]))) == [Entry(key, write(v))];
  }

  lemma EchoArgumentsSubst(form: Form, className: string)
    ensures Subst(BindingsPieces(form, EchoPlan(CLASS_MARKER).arguments), CLASS_MARKER, className)
      == BindingsPieces(form, EchoPlan(className).arguments)
  {
    hide BindingPieces, Obj, Replace, Occurs, MapPieces, Entry, Subst, DigestOf;
    var (before, after) := (EchoBinding(CLASS_MARKER), EchoBinding(className));
    ReplaceItself(CLASS_MARKER, className);
    EchoBindingSubst(form, CLASS_MARKER, className);
    OneMember("x", before, b => BindingPieces(form, b));
    OneMember("x", after, b => BindingPieces(form, b));
    TooShort("x", CLASS_MARKER);
    SubstEntry("x", BindingPieces(form, before), CLASS_MARKER, className);
    SubstObj([Entry("x", BindingPieces(form, before))], [Entry("x", BindingPieces(form, after))], CLASS_MARKER,
             className);
  }

  lemma TooShort(text: string, m: string)
    requires m != "" && |text| < |m|
    ensures !Occurs(text, m)
  {
  }

  lemma EchoRestFree(text: string, m: string)
    requires |m| > 3
    ensures RestFree(EchoPlan(text), m)
  {
    hide DigestOf, Occurs;
    var plan := EchoPlan(text);
    TooShort(plan.origin.revision, m);
    TooShort(plan.origin.pythonPath, m);
    TooShort(plan.target.pyModule, m);
    TooShort(plan.target.qualname, m);
  }

  lemma EchoPlanFree(form: Form, text: string, m: string)
    requires |m| > 3 && !Occurs(text, m)
    ensures Free(PlanPieces(form, EchoPlan(text)), m)
  {
    hide DigestOf, Occurs, RestFree, Free, PlanPieces;
    EchoRestFree(text, m);
    TooShort("x", m);
    PlanPiecesFree(form, EchoPlan(text), m);
  }

  lemma EchoPlanSubst(form: Form, className: string)
    ensures Subst(PlanPieces(form, EchoPlan(CLASS_MARKER)), CLASS_MARKER, className)
      == PlanPieces(form, EchoPlan(className))
  {
    hide DigestOf, Occurs, RestFree, Free, BindingsPieces, Field, Subst, Obj, RestPieces;
    var (plan, plan') := (EchoPlan(CLASS_MARKER), EchoPlan(className));
    EchoRestFree(CLASS_MARKER, CLASS_MARKER);
    RestPiecesFree(form, plan, CLASS_MARKER);
    EchoSameRest(form, CLASS_MARKER, className);
    EchoArgumentsSubst(form, className);
    SubstField(ARGUMENTS, BindingsPieces(form, plan.arguments), CLASS_MARKER, className);
    var (fields, fields') :=
      ([Field(ARGUMENTS, BindingsPieces(form, plan.arguments))] + RestPieces(form, plan),
       [Field(ARGUMENTS, BindingsPieces(form, plan'.arguments))] + RestPieces(form, plan'));
    forall i | 0 <= i < |fields| ensures Subst(fields[i], CLASS_MARKER, className) == fields'[i] {
      if i > 0 {
        assert fields[i] == RestPieces(form, plan)[i - 1];
        SubstFree(fields[i], CLASS_MARKER, className);
      }
    }
    SubstObj(fields, fields', CLASS_MARKER, className);
  }

  lemma EchoSameRest(form: Form, text: string, text': string)
    ensures RestPieces(form, EchoPlan(text)) == RestPieces(form, EchoPlan(text'))
  {
    hide DigestOf, Field, BindingsPieces, DigestPieces, Texts, OutputPieces, ParametersPieces, TargetPieces;
  }

  // ---------------------------------------------------------------- the two backends

  /** The operator under m:f gives back the text it is called with. */
  predicate Echoes(w: World, text: string) {
    w.lookup("m", "f").Some? && w.call(w.lookup("m", "f").value, map["x" := Text(text)]) == Some(Text(text))
  }

  lemma EchoKwargs(w: World, text: string, inputs: Inputs)
    ensures var plan := EchoPlan(text);
      && RunnerKwargs(w, plan.constructorArguments, inputs) == NativeKwargs(w, plan.constructorArguments, inputs)
           == Ok(map[])
      && RunnerKwargs(w, plan.arguments, inputs) == NativeKwargs(w, plan.arguments, inputs)
           == Ok(map["x" := Text(text)])
  {
    hide DigestOf, Gather;
    var bindings := EchoPlan(text).arguments;
    SortedOne("x");
    assert bindings.Keys == {"x"};
    GatherOne("x", bindings["x"], b => Resolve(w, b, inputs));
    GatherOne("x", bindings["x"], b => NativeResolve(w, b, inputs));
    GatherNothing(map[], b => Resolve(w, b, inputs));
    GatherNothing(map[], b => NativeResolve(w, b, inputs));
  }

  lemma GatherOne(name: string, b: CompiledBinding, resolve: CompiledBinding -> Resolved)
    requires resolve(b).Ok? && resolve(b).value.Some?
    ensures Gather([name], map[name := b], resolve) == Ok(map[name := resolve(b).value.value])
  {
    GatherNothing(map[name := b], resolve);
    assert [name][..0] == [];
  }

  lemma EchoAnswers(w: World, text: string, content: Value, metadata: map<string, Value>,
                    property: string -> Option<string>, attributes: map<string, Value>,
                    parameters: map<string, Value>)
    requires Echoes(w, text) && w.encode(text).Some? && (content.Bytes? || content.ByteArray?)
    ensures var (plan, answer) := (EchoPlan(text), Ok(Answer(w.encode(text).value, map[])));
      && Publish(plan) == Some(Release([], []))
      && Served(w, plan, Release([], []), content.bytes, attributes, parameters) == answer
      && Read(w, content.bytes, Transform(w, plan, plan.parameters, content, metadata, property)) == answer
  {
    hide DigestOf, RunnerKwargs, NativeKwargs;
    var plan := EchoPlan(text);
    EchoKwargs(w, text, Inputs(Bytes(content.bytes), Filter(attributes, []), parameters));
    EchoKwargs(w, text, Inputs(content, metadata, Properties([], property)));
    assert (set name | name in plan.inputMetadata) == {} && (set name | name in plan.outputMetadata) == {};
    assert plan.output.metadata.Keys == {};
  }

  /**
   * The constant "__CLASS_NAME__" of a contract that compiles and publishes: the runner passes
   * it on, the native processor passes its own class name.
   */
  lemma ClassNameLeaks(w: World, py: Python, form: Form, className: string, description: string, content: Value,
                       metadata: map<string, Value>, property: string -> Option<string>,
                       attributes: map<string, Value>, parameters: map<string, Value>)
    requires PlainName(className) && GoodClass(py, className) && (content.Bytes? || content.ByteArray?)
    requires Reads(py, form, EchoPlan(CLASS_MARKER)) && Reads(py, form, EchoPlan(className))
    requires Echoes(w, CLASS_MARKER) && Echoes(w, className)
    requires w.encode(CLASS_MARKER).Some? && w.encode(className).Some?
    ensures ValidContract(EchoContract())
    ensures Compile(EchoContract(), EchoCatalog()) == Ok(EchoPlan(CLASS_MARKER))
    ensures var plan := EchoPlan(CLASS_MARKER);
      var slots := NativeSlots(form, plan, className, description);
      && Publish(plan).Some?
      && ServedModule(w, py, PlanLiteral(form, plan), Publish(plan).value, content.bytes, attributes, parameters)
           == Ok(Answer(w.encode(CLASS_MARKER).value, map[]))
      && Read(w, content.bytes, NativeProcessor(w, py, slots, content, metadata, property))
           == Ok(Answer(w.encode(className).value, map[]))
  {
    hide DigestOf, Compile, PlanPieces, Publish, Served, Read, Transform, Echoes, Occurs, Free, PlanLiteral;
    hide PropertiesLiteral, Rewritten, ValidContract, Replace;
    EchoCompiles();
    EchoAnswers(w, CLASS_MARKER, content, metadata, property, attributes, parameters);
    EchoAnswers(w, className, content, metadata, property, attributes, parameters);
    EchoLoads(py, form, className, description);
  }

  lemma EchoLoads(py: Python, form: Form, className: string, description: string)
    requires PlainName(className) && GoodClass(py, className) && Reads(py, form, EchoPlan(className))
    ensures Loaded(py, Rewritten(NativeSlots(form, EchoPlan(CLASS_MARKER), className, description)))
      == Some((EchoPlan(className), EchoPlan(className).parameters))
  {
    hide DigestOf, PlanPieces, Occurs, Free, Replace, Repr, Write, ParametersPieces, Marker, Subst, RestFree;
    var plan := EchoPlan(CLASS_MARKER);
    var slots := NativeSlots(form, plan, className, description);
    MarkersApart();
    MarkersAreMarkers();
    EchoPlanSubst(form, className);
    EchoPlanFree(form, CLASS_MARKER, PROPERTIES_MARKER);
    EchoPlanFree(form, className, DESCRIPTION_MARKER);
    ClassNameReplacesMarker(form, plan, EchoPlan(className), className, description);
    NoParametersFree(form, CLASS_MARKER);
    NoParametersFree(form, DESCRIPTION_MARKER);
    PropertiesSurvive(slots);
    ReplaceNothing(className, DESCRIPTION_MARKER, slots.description);
  }

  lemma NoParametersFree(form: Form, m: string)
    requires Marker(m)
    ensures !Occurs(PropertiesLiteral(form, []), m)
  {
    assert m != "";
    hide Occurs, Free, Repr, Marker;
    ParametersPiecesFree(form, [], m);
    LiteralOccurs(form, ParametersPieces(form, []), m);
  }
}
