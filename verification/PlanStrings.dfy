/** Which strings end up in the text of a plan: those of the contract's bindings and output, and of the callable. */
module PlanStrings {
  import opened Prelude
  import opened Names
  import opened Contracts
  import opened Compiler
  import opened CompilerTheorems
  import opened AdapterTheorems
  import opened ContractMeaning
  import opened TextReplace
  import opened PlanText

  // ---------------------------------------------------------------- pieces put together

  lemma FreeJoin(a: Pieces, b: Pieces, m: string)
    requires m != ""
    ensures Free(a + b, m) <==> Free(a, m) && Free(b, m)
  {
    if Free(a + b, m) {
      assert forall i :: 0 <= i < |a| ==> (a + b)[i] == a[i];
      assert forall i :: 0 <= i < |b| ==> (a + b)[|a| + i] == b[i];
    }
  }

  lemma {:induction false} SeparatedFree(parts: seq<Pieces>, m: string)
    requires m != ""
    ensures Free(Separated(parts), m) <==> forall i :: 0 <= i < |parts| ==> Free(parts[i], m)
    decreases |parts|
  {
    hide Free;
    if parts == [] {
      assert Free([], m) by { NothingIsFree(m); }
    } else if |parts| > 1 {
      SeparatedFree(parts[1..], m);
      MarkIsFree(",", m);
      FreeJoin(parts[0], [Mark(",")], m);
      FreeJoin(parts[0] + [Mark(",")], Separated(parts[1..]), m);
      assert forall i :: 1 <= i < |parts| ==> parts[i] == parts[1..][i - 1];
    }
  }

  lemma NothingIsFree(m: string)
    requires m != ""
    ensures Free([], m)
  {
  }

  lemma MarkIsFree(mark: CleanText, m: string)
    requires m != ""
    ensures Free([Mark(mark)], m)
  {
  }

  lemma ObjFree(fields: seq<Pieces>, m: string)
    requires m != ""
    ensures Free(Obj(fields), m) <==> forall i :: 0 <= i < |fields| ==> Free(fields[i], m)
  {
    hide Free;
    SeparatedFree(fields, m);
    MarkIsFree("{", m);
    MarkIsFree("}", m);
    FreeJoin([Mark("{")], Separated(fields), m);
    FreeJoin([Mark("{")] + Separated(fields), [Mark("}")], m);
  }

  lemma ArrFree(parts: seq<Pieces>, m: string)
    requires m != ""
    ensures Free(Arr(parts), m) <==> forall i :: 0 <= i < |parts| ==> Free(parts[i], m)
  {
    hide Free;
    SeparatedFree(parts, m);
    MarkIsFree("[", m);
    MarkIsFree("]", m);
    FreeJoin([Mark("[")], Separated(parts), m);
    FreeJoin([Mark("[")] + Separated(parts), [Mark("]")], m);
  }

  lemma FieldFree(name: FieldName, value: Pieces, m: string)
    requires m != ""
    ensures Free(Field(name, value), m) <==> Free(value, m)
  {
    FreeJoin(Field(name, value)[..1], value, m);
    assert Field(name, value) == Field(name, value)[..1] + value;
  }

  lemma EntryFree(key: string, value: Pieces, m: string)
    requires m != ""
    ensures Free(Entry(key, value), m) <==> !Occurs(key, m) && Free(value, m)
  {
    FreeJoin([Quoted(key), Mark(":")], value, m);
    assert Free([Quoted(key), Mark(":")], m) <==> !Occurs(key, m) by {
      assert [Quoted(key), Mark(":")][0] == Quoted(key);
    }
  }

  lemma MapFree<T>(members: map<string, T>, write: T -> Pieces, m: string)
    requires m != "" && forall key :: key in members ==> !Occurs(key, m) && Free(write(members[key]), m)
    ensures Free(MapPieces(members, write), m)
  {
    hide Free, Occurs;
    var keys := Sorted(members.Keys);
    var fields := seq(|keys|, i requires 0 <= i < |keys| => Entry(keys[i], write(members[keys[i]])));
    forall i | 0 <= i < |fields| ensures Free(fields[i], m) {
      assert keys[i] in members;
      EntryFree(keys[i], write(members[keys[i]]), m);
    }
    ObjFree(fields, m);
  }

  lemma TextsFree(texts: seq<string>, m: string)
    requires m != "" && forall text :: text in texts ==> !Occurs(text, m)
    ensures Free(Texts(texts), m)
  {
    ArrFree(seq(|texts|, i requires 0 <= i < |texts| => [Quoted(texts[i])]), m);
  }

  // ---------------------------------------------------------------- strings of a contract

  predicate ValueFree(v: Value, m: string)
    requires m != ""
  {
    match v
    case Text(text) => !Occurs(text, m)
    case List(elements) => forall i :: 0 <= i < |elements| ==> ValueFree(elements[i], m)
    case Dict(members) => forall key :: key in members ==> !Occurs(key, m) && ValueFree(members[key], m)
    case _ => true
  }

  predicate MaybeFree(text: Option<string>, m: string)
    requires m != ""
  {
    text.Some? ==> !Occurs(text.value, m)
  }

  predicate SpecFree(spec: ParameterSpec, m: string)
    requires m != ""
  {
    && !Occurs(spec.key, m) && !Occurs(spec.displayName, m) && !Occurs(spec.description, m)
    && ValueFree(spec.default, m)
  }

  predicate BindingFree(b: Binding, m: string)
    requires m != ""
  {
    && MaybeFree(b.metadataKey, m) && ValueFree(b.constant, m)
    && (b.parameter.Some? ==> SpecFree(b.parameter.value, m))
  }

  predicate BindingsFree(bindings: Bindings, m: string)
    requires m != ""
  {
    forall i :: 0 <= i < |bindings| ==> !Occurs(bindings[i].0, m) && BindingFree(bindings[i].1, m)
  }

  predicate OutputValueFree(v: OutputValue, m: string)
    requires m != ""
  {
    && ValueFree(v.value, m)
    && forall i :: 0 <= i < |v.path| && v.path[i].Key? ==> !Occurs(v.path[i].name, m)
  }

  predicate OutputFree(output: Output, m: string)
    requires m != ""
  {
    && OutputValueFree(output.payload, m)
    && forall name :: name in output.metadata ==> !Occurs(name, m) && OutputValueFree(output.metadata[name], m)
  }

  predicate OriginFree(origin: Origin, m: string)
    requires m != ""
  {
    !Occurs(origin.revision, m) && !Occurs(origin.pythonPath, m) && MaybeFree(origin.ref, m)
  }

  /** No string of the contract that reaches the plan holds the marker. */
  predicate ContractFree(c: Contract, m: string)
    requires m != ""
  {
    && BindingsFree(c.constructorArguments, m) && BindingsFree(c.arguments, m)
    && OutputFree(c.output, m) && OriginFree(c.origin, m)
  }

  predicate CallableFree(callable: Callable, m: string)
    requires m != ""
  {
    && !Occurs(callable.pyModule, m) && !Occurs(callable.qualname, m)
    && MaybeFree(callable.classTarget, m) && MaybeFree(callable.methodName, m)
  }

  // ---------------------------------------------------------------- strings of a plan

  lemma {:induction false} ValuePiecesFree(form: Form, v: Value, m: string)
    requires m != "" && ValueFree(v, m)
    ensures Free(ValuePieces(form, v), m)
    decreases v
  {
    match v
    case List(elements) =>
      var parts := seq(|elements|, i requires 0 <= i < |elements| => ValuePieces(form, elements[i]));
      forall i | 0 <= i < |parts| ensures Free(parts[i], m) {
        ValuePiecesFree(form, elements[i], m);
      }
      ArrFree(parts, m);
    case Dict(members) =>
      var keys := Sorted(members.Keys);
      var fields := seq(|keys|, i requires 0 <= i < |keys| => Entry(keys[i], ValuePieces(form, members[keys[i]])));
      forall i | 0 <= i < |fields| ensures Free(fields[i], m) {
        assert keys[i] in members;
        ValuePiecesFree(form, members[keys[i]], m);
        EntryFree(keys[i], ValuePieces(form, members[keys[i]]), m);
      }
      ObjFree(fields, m);
    case _ =>
  }

  predicate CompiledFree(b: CompiledBinding, m: string)
    requires m != ""
  {
    MaybeFree(b.metadataKey, m) && MaybeFree(b.parameterKey, m) && ValueFree(b.constant, m) && ValueFree(b.default, m)
  }

  predicate ParameterFree(p: CompiledParameter, m: string)
    requires m != ""
  {
    !Occurs(p.key, m) && !Occurs(p.displayName, m) && !Occurs(p.description, m) && ValueFree(p.default, m)
  }

  lemma PlainPieces(b: CompiledBinding, m: string)
    requires m != "" && MaybeFree(b.metadataKey, m) && MaybeFree(b.parameterKey, m)
    ensures Free(MaybeText(b.metadataKey), m) && Free(MaybeText(b.parameterKey), m)
    ensures Free(CodecPieces(b.codec), m) && Free(SourcePieces(b.source), m)
    ensures Free(Truth(b.required), m) && Free(Truth(b.hasDefault), m)
  {
  }

  lemma BindingPiecesFree(form: Form, b: CompiledBinding, m: string)
    requires m != "" && CompiledFree(b, m)
    ensures Free(BindingPieces(form, b), m)
  {
    hide Free, ValueFree, ValuePieces, CodecPieces, SourcePieces, Truth, MaybeText, MaybeFree, Occurs, Field;
    PlainPieces(b, m);
    ValuePiecesFree(form, b.constant, m);
    ValuePiecesFree(form, b.default, m);
    FieldFree(CODEC, CodecPieces(b.codec), m);
    FieldFree(CONSTANT, ValuePieces(form, b.constant), m);
    FieldFree(DEFAULT, ValuePieces(form, b.default), m);
    FieldFree(HAS_DEFAULT, Truth(b.hasDefault), m);
    FieldFree(METADATA_KEY, MaybeText(b.metadataKey), m);
    FieldFree(PARAMETER_KEY, MaybeText(b.parameterKey), m);
    FieldFree(REQUIRED, Truth(b.required), m);
    FieldFree(SOURCE, SourcePieces(b.source), m);
    ObjFree([Field(CODEC, CodecPieces(b.codec)), Field(CONSTANT, ValuePieces(form, b.constant))]
            + DefaultPieces(form, b)
            + [Field(METADATA_KEY, MaybeText(b.metadataKey)), Field(PARAMETER_KEY, MaybeText(b.parameterKey)),
               Field(REQUIRED, Truth(b.required)), Field(SOURCE, SourcePieces(b.source))], m);
  }

  predicate AllCompiledFree(bindings: CompiledBindings, m: string)
    requires m != ""
  {
    forall name :: name in bindings ==> !Occurs(name, m) && CompiledFree(bindings[name], m)
  }

  lemma BindingsPiecesFree(form: Form, bindings: CompiledBindings, m: string)
    requires m != "" && AllCompiledFree(bindings, m)
    ensures Free(BindingsPieces(form, bindings), m)
  {
    hide Free, Occurs, BindingPieces;
    forall name | name in bindings ensures Free(BindingPieces(form, bindings[name]), m) {
      BindingPiecesFree(form, bindings[name], m);
    }
    MapFree(bindings, b => BindingPieces(form, b), m);
  }

  lemma OutputValuePiecesFree(form: Form, v: OutputValue, m: string)
    requires m != "" && OutputValueFree(v, m)
    ensures Free(OutputValuePieces(form, v), m)
  {
    PathPiecesFree(form, v, m);
    CodesFree(v, m);
    var parts := seq(|v.path|, i requires 0 <= i < |v.path| => PartPieces(form, v.path[i]));
    hide Free, ValueFree, ValuePieces, CodecPieces, OutputSourcePieces, Occurs, PartPieces, Field;
    ArrFree(parts, m);
    ValuePiecesFree(form, v.value, m);
    FieldFree(CODEC, CodecPieces(v.codec), m);
    FieldFree(PATH, Arr(parts), m);
    FieldFree(SOURCE, OutputSourcePieces(v.source), m);
    FieldFree(VALUE, ValuePieces(form, v.value), m);
    ObjFree([Field(CODEC, CodecPieces(v.codec)), Field(PATH, Arr(parts)), Field(SOURCE, OutputSourcePieces(v.source)),
             Field(VALUE, ValuePieces(form, v.value))], m);
  }

  lemma PathPiecesFree(form: Form, v: OutputValue, m: string)
    requires m != "" && OutputValueFree(v, m)
    ensures forall i :: 0 <= i < |v.path| ==> Free(PartPieces(form, v.path[i]), m)
  {
    hide ValueFree, Occurs;
  }

  lemma CodesFree(v: OutputValue, m: string)
    requires m != ""
    ensures Free(CodecPieces(v.codec), m) && Free(OutputSourcePieces(v.source), m)
  {
  }

  lemma OutputPiecesFree(form: Form, output: Output, m: string)
    requires m != "" && OutputFree(output, m)
    ensures Free(OutputPieces(form, output), m)
  {
    assert Free(PolicyPieces(output.nonePolicy), m);
    hide Free, OutputValueFree, OutputValuePieces, PolicyPieces, Occurs, Field;
    forall name | name in output.metadata ensures Free(OutputValuePieces(form, output.metadata[name]), m) {
      OutputValuePiecesFree(form, output.metadata[name], m);
    }
    var metadata := MapPieces(output.metadata, v => OutputValuePieces(form, v));
    MapFree(output.metadata, v => OutputValuePieces(form, v), m);
    OutputValuePiecesFree(form, output.payload, m);
    FieldFree(METADATA, metadata, m);
    FieldFree(NONE_POLICY, PolicyPieces(output.nonePolicy), m);
    FieldFree(PAYLOAD, OutputValuePieces(form, output.payload), m);
    ObjFree([Field(METADATA, metadata), Field(NONE_POLICY, PolicyPieces(output.nonePolicy)),
             Field(PAYLOAD, OutputValuePieces(form, output.payload))], m);
  }

  lemma ParameterPiecesFree(form: Form, p: CompiledParameter, m: string)
    requires m != "" && ParameterFree(p, m)
    ensures Free(ParameterPieces(form, p), m)
  {
    assert Free([Quoted(p.description)], m) && Free([Quoted(p.displayName)], m) && Free([Quoted(p.key)], m);
    assert Free(Truth(p.hasDefault), m) && Free(Truth(p.required), m);
    hide Free, ValueFree, ValuePieces, Truth, Occurs, Field;
    ValuePiecesFree(form, p.default, m);
    FieldFree(DEFAULT, ValuePieces(form, p.default), m);
    FieldFree(DESCRIPTION, [Quoted(p.description)], m);
    FieldFree(DISPLAY_NAME, [Quoted(p.displayName)], m);
    FieldFree(HAS_DEFAULT, Truth(p.hasDefault), m);
    FieldFree(KEY, [Quoted(p.key)], m);
    FieldFree(REQUIRED, Truth(p.required), m);
    ObjFree([Field(DEFAULT, ValuePieces(form, p.default)), Field(DESCRIPTION, [Quoted(p.description)]),
             Field(DISPLAY_NAME, [Quoted(p.displayName)]), Field(HAS_DEFAULT, Truth(p.hasDefault)),
             Field(KEY, [Quoted(p.key)]), Field(REQUIRED, Truth(p.required))], m);
  }

  lemma ParametersPiecesFree(form: Form, parameters: seq<CompiledParameter>, m: string)
    requires m != "" && forall i :: 0 <= i < |parameters| ==> ParameterFree(parameters[i], m)
    ensures Free(ParametersPieces(form, parameters), m)
  {
    hide Free, ParameterFree, ParameterPieces;
    var parts := seq(|parameters|, i requires 0 <= i < |parameters| => ParameterPieces(form, parameters[i]));
    forall i | 0 <= i < |parts| ensures Free(parts[i], m) {
      ParameterPiecesFree(form, parameters[i], m);
    }
    ArrFree(parts, m);
  }

  predicate TargetFree(target: Target, m: string)
    requires m != ""
  {
    && !Occurs(target.pyModule, m) && !Occurs(target.qualname, m)
    && MaybeFree(target.classTarget, m) && MaybeFree(target.methodName, m)
    && (target.class_.Some? ==> !Occurs(target.class_.value.0, m) && !Occurs(target.class_.value.1, m))
  }

  lemma TargetPiecesFree(form: Form, target: Target, m: string)
    requires m != "" && TargetFree(target, m)
    ensures Free(TargetPieces(target), m)
  {
    assert Free(MaybeText(target.classTarget), m) && Free(KindPieces(target.kind), m);
    assert Free(MaybeText(target.methodName), m);
    assert Free([Quoted(target.pyModule)], m) && Free([Quoted(target.qualname)], m);
    assert target.class_.Some? ==> Free([Quoted(target.class_.value.0)], m) && Free([Quoted(target.class_.value.1)], m);
    hide Free, MaybeText, KindPieces, Occurs, Field;
    if target.class_.Some? {
      FieldFree(CLASS_MODULE, [Quoted(target.class_.value.0)], m);
      FieldFree(CLASS_QUALNAME, [Quoted(target.class_.value.1)], m);
    }
    FieldFree(CLASS_TARGET, MaybeText(target.classTarget), m);
    FieldFree(KIND, KindPieces(target.kind), m);
    FieldFree(METHOD_NAME, MaybeText(target.methodName), m);
    FieldFree(MODULE, [Quoted(target.pyModule)], m);
    FieldFree(QUALNAME, [Quoted(target.qualname)], m);
    ObjFree(ClassPieces(target.class_)
            + [Field(CLASS_TARGET, MaybeText(target.classTarget)), Field(KIND, KindPieces(target.kind)),
               Field(METHOD_NAME, MaybeText(target.methodName)), Field(MODULE, [Quoted(target.pyModule)]),
               Field(QUALNAME, [Quoted(target.qualname)])], m);
  }

  /** Every string of the plan but those of its argument bindings. */
  predicate RestFree(plan: Plan, m: string)
    requires m != ""
  {
    && AllCompiledFree(plan.constructorArguments, m)
    && (forall text :: text in plan.inputMetadata ==> !Occurs(text, m))
    && OutputFree(plan.output, m)
    && (forall text :: text in plan.outputMetadata ==> !Occurs(text, m))
    && (forall i :: 0 <= i < |plan.parameters| ==> ParameterFree(plan.parameters[i], m))
    && OriginFree(plan.origin, m) && TargetFree(plan.target, m)
  }

  lemma SmallPieces(form: Form, plan: Plan, m: string)
    requires m != "" && OriginFree(plan.origin, m)
    ensures Free(Word("virtual-direct-v1"), m) && Free(DigestPieces(form, plan.digest), m)
    ensures Free([Quoted(plan.origin.pythonPath)], m) && Free(MaybeText(plan.origin.ref), m)
    ensures Free([Quoted(plan.origin.revision)], m)
  {
  }

  lemma RestPiecesFree(form: Form, plan: Plan, m: string)
    requires m != "" && RestFree(plan, m)
    ensures forall i :: 0 <= i < |RestPieces(form, plan)| ==> Free(RestPieces(form, plan)[i], m)
  {
    hide Free, Occurs, Field, AllCompiledFree, OutputFree, ParameterFree, OriginFree, TargetFree, BindingsPieces;
    hide OutputPieces, ParametersPieces, TargetPieces, DigestPieces, MaybeText, Texts;
    SmallPieces(form, plan, m);
    BindingsPiecesFree(form, plan.constructorArguments, m);
    TextsFree(plan.inputMetadata, m);
    OutputPiecesFree(form, plan.output, m);
    TextsFree(plan.outputMetadata, m);
    ParametersPiecesFree(form, plan.parameters, m);
    TargetPiecesFree(form, plan.target, m);
    FieldFree(COMPILER_VERSION, Word("virtual-direct-v1"), m);
    FieldFree(CONSTRUCTOR_ARGUMENTS, BindingsPieces(form, plan.constructorArguments), m);
    FieldFree(CONTRACT_SHA256, DigestPieces(form, plan.digest), m);
    FieldFree(INPUT_METADATA, Texts(plan.inputMetadata), m);
    FieldFree(OUTPUT, OutputPieces(form, plan.output), m);
    FieldFree(OUTPUT_METADATA, Texts(plan.outputMetadata), m);
    FieldFree(PARAMETERS, ParametersPieces(form, plan.parameters), m);
    FieldFree(PYTHON_PATH, [Quoted(plan.origin.pythonPath)], m);
    FieldFree(SOURCE_REF, MaybeText(plan.origin.ref), m);
    FieldFree(SOURCE_REVISION, [Quoted(plan.origin.revision)], m);
    FieldFree(TARGET, TargetPieces(plan.target), m);
  }

  /** The text of a plan is free of a marker if all its strings are. */
  lemma PlanPiecesFree(form: Form, plan: Plan, m: string)
    requires m != "" && RestFree(plan, m) && AllCompiledFree(plan.arguments, m)
    ensures Free(PlanPieces(form, plan), m)
  {
    hide Free, RestFree, AllCompiledFree, BindingsPieces, RestPieces, Field;
    BindingsPiecesFree(form, plan.arguments, m);
    RestPiecesFree(form, plan, m);
    FieldFree(ARGUMENTS, BindingsPieces(form, plan.arguments), m);
    ObjFree([Field(ARGUMENTS, BindingsPieces(form, plan.arguments))] + RestPieces(form, plan), m);
  }

  /** What the property list quotes, the plan quotes too. */
  lemma PropertiesWithinPlan(form: Form, plan: Plan, m: string)
    requires m != "" && Free(PlanPieces(form, plan), m)
    ensures Free(ParametersPieces(form, plan.parameters), m)
  {
    hide Free, BindingsPieces, Field, OutputPieces, ParametersPieces, TargetPieces, DigestPieces, MaybeText, Texts;
    var fields := [Field(ARGUMENTS, BindingsPieces(form, plan.arguments))] + RestPieces(form, plan);
    ObjFree(fields, m);
    assert fields[7] == Field(PARAMETERS, ParametersPieces(form, plan.parameters));
    FieldFree(PARAMETERS, ParametersPieces(form, plan.parameters), m);
  }

  // ---------------------------------------------------------------- where the strings of a plan come from

  lemma PayloadFree(parameter: Parameter, b: Binding, m: string)
    requires m != "" && ValidBinding(b) && BindingFree(b, m)
    ensures CompiledFree(Payload(parameter, b), m)
  {
  }

  lemma PayloadsFree(defs: map<string, Parameter>, bindings: Bindings, m: string)
    requires m != "" && ValidBindings(bindings) && Known(defs, bindings) && BindingsFree(bindings, m)
    ensures AllCompiledFree(Payloads(defs, bindings), m)
  {
    hide Payloads, Payload, CompiledFree, BindingFree, Occurs;
    PayloadsSpec(defs, bindings, |bindings|);
    forall name | name in Payloads(defs, bindings)
      ensures !Occurs(name, m) && CompiledFree(Payloads(defs, bindings)[name], m)
    {
      var i :| 0 <= i < |bindings| && bindings[i].0 == name;
      PayloadsSpec(defs, bindings, i);
      PayloadFree(defs[name], bindings[i].1, m);
    }
  }

  lemma DemandsFree(defs: map<string, Parameter>, bindings: Bindings, m: string)
    requires m != "" && ValidBindings(bindings) && Known(defs, bindings) && BindingsFree(bindings, m)
    ensures forall p :: p in Demands(defs, bindings) ==> ParameterFree(p, m)
  {
    hide Occurs, ValueFree;
    forall p | p in Demands(defs, bindings) ensures ParameterFree(p, m) {
      var i :| 0 <= i < |bindings| && bindings[i].1.source.OperatorParameter?
        && p == Compiled(defs[bindings[i].0], bindings[i].1.parameter.value);
      assert BindingFree(bindings[i].1, m);
    }
  }

  lemma AskedIsFree(bindings: Bindings, key: string, m: string)
    requires m != "" && BindingsFree(bindings, m) && AsksFor(bindings, key)
    ensures !Occurs(key, m)
  {
    hide Occurs, ValueFree;
    var i :| 0 <= i < |bindings| && bindings[i].1.source.InputMetadata? && bindings[i].1.metadataKey == Some(key);
    assert BindingFree(bindings[i].1, m);
  }

  lemma TargetIsFree(callable: Callable, m: string)
    requires m != "" && CallableFree(callable, m) && TargetPayload(callable).Some?
    ensures TargetFree(TargetPayload(callable).value, m)
  {
    hide Occurs, SplitTarget;
    var target := TargetPayload(callable).value;
    if target.class_.Some? {
      var (pyModule, qualname) := target.class_.value;
      SplitTargetSpec(callable.classTarget.value, pyModule, qualname);
      if Occurs(pyModule, m) { OccursInMore("", pyModule, ":" + qualname, m); }
      if Occurs(qualname, m) { OccursInMore(pyModule + ":", qualname, "", m); }
      assert "" + pyModule + (":" + qualname) == pyModule + ":" + qualname == pyModule + ":" + qualname + "";
    }
  }

  lemma PlanParametersFree(c: Contract, catalog: Catalog, m: string)
    requires m != "" && ValidContract(c) && Compile(c, catalog).Ok? && ContractFree(c, m)
    ensures var plan := Compile(c, catalog).value;
      forall i :: 0 <= i < |plan.parameters| ==> ParameterFree(plan.parameters[i], m)
  {
    hide Selected, ValidBindings, Known, Supported, TargetPayload, Declared, Payloads, AsMap, Demands, Consistent;
    hide ParameterFree, BindingsFree, OutputFree, OriginFree;
    var callable := Selected(c, catalog).value;
    SelectedIsReady(c, catalog);
    DeclaredSpec(c, callable, catalog);
    DemandsFree(ConstructorMap(callable, catalog), c.constructorArguments, m);
    DemandsFree(ByName(callable.parameters), c.arguments, m);
    var table := Declared(c, callable, catalog).value;
    forall i | 0 <= i < |InKeyOrder(table)| ensures ParameterFree(InKeyOrder(table)[i], m) {
      assert Sorted(table.Keys)[i] in table;
    }
  }

  lemma PlanMetadataFree(c: Contract, catalog: Catalog, m: string)
    requires m != "" && ValidContract(c) && Compile(c, catalog).Ok? && ContractFree(c, m)
    ensures var plan := Compile(c, catalog).value;
      && (forall text :: text in plan.inputMetadata ==> !Occurs(text, m))
      && (forall text :: text in plan.outputMetadata ==> !Occurs(text, m))
  {
    hide Compile, ValidContract, Occurs, BindingsFree, AsksFor, Defined, ParameterKeys, OutputValueFree, OriginFree;
    var plan := Compile(c, catalog).value;
    PlanLists(c, catalog);
    forall text | text in plan.inputMetadata ensures !Occurs(text, m) {
      PlanListsExactly(c, catalog, text);
      if AsksFor(c.constructorArguments, text) {
        AskedIsFree(c.constructorArguments, text, m);
      } else {
        AskedIsFree(c.arguments, text, m);
      }
    }
  }

  /** If no string of the contract and of the callable holds the marker, none of the plan does. */
  lemma PlanIsFree(form: Form, c: Contract, catalog: Catalog, m: string)
    requires m != "" && ValidContract(c) && Compile(c, catalog).Ok? && ContractFree(c, m)
    requires Selected(c, catalog).Ok? && CallableFree(Selected(c, catalog).value, m)
    ensures Free(PlanPieces(form, Compile(c, catalog).value), m)
  {
    hide Compile, Selected, Occurs, Payloads, ByName, TargetPayload, TargetFree, ParameterFree, CompiledFree;
    hide BindingsFree, OutputFree, OriginFree, CallableFree, ValidBindings, Known, AllCompiledFree, PlanPieces, Free;
    var (plan, callable) := (Compile(c, catalog).value, Selected(c, catalog).value);
    PlanParts(c, catalog);
    ReadyParts(c, callable, catalog);
    PlanOrigin(c, catalog);
    PayloadsFree(ByName(ConstructorDefs(callable, catalog)), c.constructorArguments, m);
    PayloadsFree(ByName(callable.parameters), c.arguments, m);
    PlanParametersFree(c, catalog, m);
    PlanMetadataFree(c, catalog, m);
    TargetIsFree(callable, m);
    PlanPiecesFree(form, plan, m);
  }

  lemma PlanOrigin(c: Contract, catalog: Catalog)
    requires ValidContract(c) && Compile(c, catalog).Ok?
    ensures Compile(c, catalog).value.origin == c.origin
  {
    hide Selected, ValidBindings, Known, Supported, TargetPayload, Declared, Payloads, AsMap, InKeyOrder;
  }
}
