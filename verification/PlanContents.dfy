/** When a contract compiles, and what its plan lists, in the contract's own terms. */
module PlanContents {
  import opened Prelude
  import opened Names
  import opened Contracts
  import opened Compiler
  import opened CompilerTheorems
  import opened AdapterTheorems

  // ---------------------------------------------------------------- Python's equality

  predicate Numeric(v: Value) {
    v.Bool? || v.Number?
  }

  function Amount(v: Value): real
    requires Numeric(v)
  {
    if v.Number? then v.n else if v.b then 1.0 else 0.0
  }

  predicate Binary(v: Value) {
    v.Bytes? || v.ByteArray?
  }

  /**
   * `==`: numbers by amount, True being 1; byte strings by content, frozen or not; lists item by
   * item and dictionaries by their keys and item by item; anything else only if it is the same.
   */
  lemma PyEqualIff(a: Value, b: Value)
    ensures PyEqual(a, b) <==>
      if Numeric(a) then Numeric(b) && Amount(a) == Amount(b)
      else if Binary(a) then Binary(b) && a.bytes == b.bytes
      else if a.List? then b.List? && SameItemwise(a.elements, b.elements)
      else if a.Dict? then b.Dict? && SameMemberwise(a.members, b.members)
      else a == b
  {
    if a.List? && b.List? {
      ItemwiseIff(a.elements, b.elements);
    } else if a.Dict? && b.Dict? {
      MemberwiseIff(a.members, b.members);
    }
  }

  predicate SameItemwise(a: seq<Value>, b: seq<Value>) {
    |a| == |b| && forall i :: 0 <= i < |a| ==> PyEqual(a[i], b[i])
  }

  predicate SameMemberwise(a: map<string, Value>, b: map<string, Value>) {
    a.Keys == b.Keys && forall key :: key in a ==> PyEqual(a[key], b[key])
  }

  lemma ItemwiseIff(a: seq<Value>, b: seq<Value>)
    ensures Seen(List(a)) == Seen(List(b)) <==> SameItemwise(a, b)
  {
    var (x, y) := (Seen(List(a)).elements, Seen(List(b)).elements);
    assert forall i :: 0 <= i < |a| ==> x[i] == Seen(a[i]);
    assert forall i :: 0 <= i < |b| ==> y[i] == Seen(b[i]);
    if SameItemwise(a, b) { assert x == y; }
    if x == y { assert forall i :: 0 <= i < |a| ==> PyEqual(a[i], b[i]); }
  }

  lemma MemberwiseIff(a: map<string, Value>, b: map<string, Value>)
    ensures Seen(Dict(a)) == Seen(Dict(b)) <==> SameMemberwise(a, b)
  {
    var (x, y) := (Seen(Dict(a)).members, Seen(Dict(b)).members);
    assert x.Keys == a.Keys && y.Keys == b.Keys;
    assert forall key :: key in a ==> x[key] == Seen(a[key]);
    assert forall key :: key in b ==> y[key] == Seen(b[key]);
    if SameMemberwise(a, b) { assert x == y; }
    if x == y { assert forall key :: key in a ==> PyEqual(a[key], b[key]); }
  }

  // ---------------------------------------------------------------- callables that can be called

  /** Every parameter can be passed by name, and none collects what is left over. */
  predicate TakesKeywords(parameters: seq<Parameter>) {
    forall i :: 0 <= i < |parameters| ==>
      && parameters[i].kind != PositionalOnly
      && parameters[i].kind != VarPositional && parameters[i].kind != VarKeyword
  }

  /** Not a coroutine, and called with keywords only; a method is of a class that can be made the same way. */
  predicate PlainCallable(callable: Callable, catalog: Catalog) {
    && !callable.isAsync && TakesKeywords(callable.parameters)
    && (callable.kind == InstanceMethod ==>
          && callable.classTarget.Some? && callable.classTarget.value != ""
          && ClassByTarget(catalog.classes, callable.classTarget.value).Some?
          && TakesKeywords(ClassByTarget(catalog.classes, callable.classTarget.value).value.initializer))
  }

  lemma SupportedIff(callable: Callable, catalog: Catalog)
    ensures Supported(callable, catalog) <==> PlainCallable(callable, catalog)
  {
  }

  /** The first class of this target. */
  lemma {:induction false} ClassByTargetSpec(classes: seq<ClassInfo>, target: string)
    ensures match ClassByTarget(classes, target)
      case None => forall i :: 0 <= i < |classes| ==> classes[i].target != target
      case Some(found) => exists i :: 0 <= i < |classes| && classes[i] == found && found.target == target && forall j ::
        0 <= j < i ==> classes[j].target != target
  {
    if classes != [] && classes[0].target != target {
      ClassByTargetSpec(classes[1..], target);
      assert forall i :: 1 <= i < |classes| ==> classes[i] == classes[1..][i - 1];
      var rest := ClassByTarget(classes[1..], target);
      if rest.Some? {
        var i :| 0 <= i < |classes[1..]| && classes[1..][i] == rest.value && forall j ::
          0 <= j < i ==> classes[1..][j].target != target;
        assert classes[i + 1] == rest.value;
        forall j | 0 <= j < i + 1 ensures classes[j].target != target {
          if j > 0 { assert classes[j] == classes[1..][j - 1]; }
        }
      }
    }
  }

  // ---------------------------------------------------------------- definitions of operator parameters

  /** A binding of these asks the operator for `spec`, to be passed as `parameter`. */
  ghost predicate AsksAs(defs: map<string, Parameter>, bindings: Bindings, parameter: Parameter, spec: ParameterSpec) {
    exists i :: 0 <= i < |bindings| && AsksAt(defs, bindings[i], parameter, spec)
  }

  predicate AsksAt(defs: map<string, Parameter>, item: (string, Binding), parameter: Parameter, spec: ParameterSpec) {
    && item.1.source == OperatorParameter && item.1.parameter == Some(spec)
    && item.0 in defs && defs[item.0] == parameter
  }

  /** What a plan says of the operator parameter that such a binding asks for. */
  predicate Describes(p: CompiledParameter, parameter: Parameter, spec: ParameterSpec) {
    && p.key == spec.key && p.displayName == (if spec.displayName != "" then spec.displayName else spec.key)
    && p.description == spec.description && p.required == (spec.required || parameter.required)
    && p.hasDefault == spec.hasDefault && p.default == spec.default
  }

  lemma DemandIff(defs: map<string, Parameter>, bindings: Bindings, p: CompiledParameter)
    requires ValidBindings(bindings) && Known(defs, bindings)
    ensures p in Demands(defs, bindings)
      <==> exists parameter, spec :: AsksAs(defs, bindings, parameter, spec) && Describes(p, parameter, spec)
  {
    if p in Demands(defs, bindings) {
      var i :| 0 <= i < |bindings| && bindings[i].1.source.OperatorParameter?
        && p == Compiled(defs[bindings[i].0], bindings[i].1.parameter.value);
      var (parameter, spec) := (defs[bindings[i].0], bindings[i].1.parameter.value);
      assert ValidBinding(bindings[i].1);
      assert AsksAt(defs, bindings[i], parameter, spec);
      assert AsksAs(defs, bindings, parameter, spec) && Describes(p, parameter, spec);
    }
    if exists parameter, spec :: AsksAs(defs, bindings, parameter, spec) && Describes(p, parameter, spec) {
      var parameter, spec :| AsksAs(defs, bindings, parameter, spec) && Describes(p, parameter, spec);
      var i :| 0 <= i < |bindings| && AsksAt(defs, bindings[i], parameter, spec);
      assert p == Compiled(defs[bindings[i].0], bindings[i].1.parameter.value);
    }
  }

  ghost predicate Asked(c: Contract, callable: Callable, catalog: Catalog, parameter: Parameter, spec: ParameterSpec)
    requires Supported(callable, catalog)
  {
    || AsksAs(ByName(ConstructorDefs(callable, catalog)), c.constructorArguments, parameter, spec)
    || AsksAs(ByName(callable.parameters), c.arguments, parameter, spec)
  }

  /** Two definitions that say the same, their defaults being equal under `==`. */
  predicate Alike(parameter: Parameter, spec: ParameterSpec, parameter': Parameter, spec': ParameterSpec) {
    && (if spec.displayName != "" then spec.displayName else spec.key)
         == (if spec'.displayName != "" then spec'.displayName else spec'.key)
    && spec.description == spec'.description && spec.hasDefault == spec'.hasDefault
    && (spec.required || parameter.required) == (spec'.required || parameter'.required)
    && PyEqual(spec.default, spec'.default)
  }

  /** All definitions of one key say the same, in both maps together. */
  ghost predicate DefinitionsAgree(c: Contract, callable: Callable, catalog: Catalog)
    requires Supported(callable, catalog)
  {
    forall parameter, spec, parameter', spec' ::
      && Asked(c, callable, catalog, parameter, spec) && Asked(c, callable, catalog, parameter', spec')
      && spec.key == spec'.key ==>
        Alike(parameter, spec, parameter', spec')
  }

  lemma DemandedIff(c: Contract, callable: Callable, catalog: Catalog, p: CompiledParameter)
    requires Ready(c, callable, catalog)
    ensures p in ConstructorDemands(c, callable, catalog) + ArgumentDemands(c, callable, catalog) <==>
      exists parameter, spec :: Asked(c, callable, catalog, parameter, spec) && Describes(p, parameter, spec)
  {
    hide Describes, AsksAs, Demands, ByName;
    DemandIff(ByName(ConstructorDefs(callable, catalog)), c.constructorArguments, p);
    DemandIff(ByName(callable.parameters), c.arguments, p);
    var defs := ByName(ConstructorDefs(callable, catalog));
    if p in ConstructorDemands(c, callable, catalog) {
      var parameter, spec :| AsksAs(defs, c.constructorArguments, parameter, spec) && Describes(p, parameter, spec);
      assert Asked(c, callable, catalog, parameter, spec);
    }
    if p in ArgumentDemands(c, callable, catalog) {
      var parameter, spec :|
        AsksAs(ByName(callable.parameters), c.arguments, parameter, spec) && Describes(p, parameter, spec);
      assert Asked(c, callable, catalog, parameter, spec);
    }
  }

  lemma SameIff(a: CompiledParameter, b: CompiledParameter, parameter: Parameter, spec: ParameterSpec,
                parameter': Parameter, spec': ParameterSpec)
    requires Describes(a, parameter, spec) && Describes(b, parameter', spec') && spec.key == spec'.key
    ensures Same(a, b) <==> Alike(parameter, spec, parameter', spec')
  {
    hide PyEqual;
  }

  function DescriptionOf(parameter: Parameter, spec: ParameterSpec): (p: CompiledParameter)
    ensures Describes(p, parameter, spec)
  {
    Compiled(parameter, spec)
  }

  lemma AgreeIff(c: Contract, callable: Callable, catalog: Catalog)
    requires Ready(c, callable, catalog)
    ensures Consistent(ConstructorDemands(c, callable, catalog) + ArgumentDemands(c, callable, catalog))
      <==> DefinitionsAgree(c, callable, catalog)
  {
    assert Supported(callable, catalog);
    hide Same, Alike, Asked, Describes, ConstructorDemands, ArgumentDemands, DescriptionOf, Ready, Supported;
    var demands := ConstructorDemands(c, callable, catalog) + ArgumentDemands(c, callable, catalog);
    if Consistent(demands) {
      forall parameter, spec, parameter', spec' |
        && Asked(c, callable, catalog, parameter, spec) && Asked(c, callable, catalog, parameter', spec')
        && spec.key == spec'.key
        ensures Alike(parameter, spec, parameter', spec')
      {
        BothDemanded(c, callable, catalog, parameter, spec, parameter', spec');
      }
    }
    if DefinitionsAgree(c, callable, catalog) {
      forall a, b | a in demands && b in demands && a.key == b.key ensures Same(a, b) {
        DemandedIff(c, callable, catalog, a);
        DemandedIff(c, callable, catalog, b);
        var parameter, spec :| Asked(c, callable, catalog, parameter, spec) && Describes(a, parameter, spec);
        var parameter', spec' :| Asked(c, callable, catalog, parameter', spec') && Describes(b, parameter', spec');
        KeyOfDescribed(a, parameter, spec);
        KeyOfDescribed(b, parameter', spec');
        SameIff(a, b, parameter, spec, parameter', spec');
      }
    }
  }

  lemma KeyOfDescribed(p: CompiledParameter, parameter: Parameter, spec: ParameterSpec)
    requires Describes(p, parameter, spec)
    ensures p.key == spec.key
  {
  }

  lemma BothDemanded(c: Contract, callable: Callable, catalog: Catalog, parameter: Parameter, spec: ParameterSpec,
                     parameter': Parameter, spec': ParameterSpec)
    requires Ready(c, callable, catalog)
    requires Consistent(ConstructorDemands(c, callable, catalog) + ArgumentDemands(c, callable, catalog))
    requires Asked(c, callable, catalog, parameter, spec) && Asked(c, callable, catalog, parameter', spec')
    requires spec.key == spec'.key
    ensures Alike(parameter, spec, parameter', spec')
  {
    hide Same, Alike, Asked, Describes, ConstructorDemands, ArgumentDemands, DescriptionOf, Ready, Supported;
    var (a, b) := (DescriptionOf(parameter, spec), DescriptionOf(parameter', spec'));
    DemandedIff(c, callable, catalog, a);
    DemandedIff(c, callable, catalog, b);
    KeyOfDescribed(a, parameter, spec);
    KeyOfDescribed(b, parameter', spec');
    SameIff(a, b, parameter, spec, parameter', spec');
  }

  // ---------------------------------------------------------------- when a contract compiles

  lemma {:induction false} SplitsIff(target: string)
    ensures SplitTarget(target).Some? <==> ':' in target
  {
    if target != "" && target[0] != ':' {
      SplitsIff(target[1..]);
      assert target == [target[0]] + target[1..];
    }
  }

  /** What a contract needs of the callable it selects, in plain terms. */
  ghost predicate Acceptable(c: Contract, callable: Callable, catalog: Catalog) {
    SupportedIff(callable, catalog);
    && PlainCallable(callable, catalog)
    && (callable.kind != InstanceMethod ==> c.constructorArguments == [])
    && Complete(ConstructorDefs(callable, catalog), NamesOf(c.constructorArguments))
    && Complete(callable.parameters, NamesOf(c.arguments))
    && DefinitionsAgree(c, callable, catalog)
    && (callable.classTarget.Some? && callable.classTarget.value != "" ==> ':' in callable.classTarget.value)
  }

  /**
   * A contract compiles exactly when it was made for this snapshot, the snapshot parses, the
   * selected callable takes keywords only, every bound name is a parameter, every required
   * parameter is bound, and all definitions of an operator parameter say the same.
   */
  lemma CompilesExactly(c: Contract, catalog: Catalog)
    requires ValidContract(c)
    ensures Compile(c, catalog).Ok? <==>
      && c.origin.revision == catalog.revision && c.origin.pythonPath == catalog.pythonPath && !catalog.hasErrors
      && CallableById(catalog, c.callableId).Some? && Acceptable(c, CallableById(catalog, c.callableId).value, catalog)
  {
    hide Compile, CallableById, Supported, PlainCallable, Complete, DefinitionsAgree, Consistent, SplitTarget;
    hide ConstructorDemands, ArgumentDemands;
    CompilesIff(c, catalog);
    var found := CallableById(catalog, c.callableId);
    if found.Some? {
      var callable := found.value;
      SupportedIff(callable, catalog);
      if callable.classTarget.Some? { SplitsIff(callable.classTarget.value); }
      if Supported(callable, catalog) && Complete(ConstructorDefs(callable, catalog), NamesOf(c.constructorArguments))
         && Complete(callable.parameters, NamesOf(c.arguments))
      {
        CompleteIsReady(c, callable, catalog);
        AgreeIff(c, callable, catalog);
      }
    }
  }

  lemma CompleteIsReady(c: Contract, callable: Callable, catalog: Catalog)
    requires ValidContract(c) && Supported(callable, catalog)
    requires Complete(ConstructorDefs(callable, catalog), NamesOf(c.constructorArguments))
    requires Complete(callable.parameters, NamesOf(c.arguments))
    ensures Ready(c, callable, catalog)
  {
    hide Supported, ValidContract;
    ValidateIff(ConstructorDefs(callable, catalog), NamesOf(c.constructorArguments));
    ValidateIff(callable.parameters, NamesOf(c.arguments));
    ValidatedIsKnown(ConstructorDefs(callable, catalog), c.constructorArguments);
    ValidatedIsKnown(callable.parameters, c.arguments);
  }

  // ---------------------------------------------------------------- why a contract does not compile

  predicate Unknown(parameters: seq<Parameter>, bindings: Bindings) {
    exists i :: 0 <= i < |bindings| && forall j :: 0 <= j < |parameters| ==> parameters[j].name != bindings[i].0
  }

  predicate Missing(parameters: seq<Parameter>, bindings: Bindings) {
    exists j :: 0 <= j < |parameters| && parameters[j].required && forall i ::
      0 <= i < |bindings| ==> bindings[i].0 != parameters[j].name
  }

  ghost predicate Conflict(c: Contract, callable: Callable, catalog: Catalog, key: string)
    requires Supported(callable, catalog)
  {
    exists parameter, spec, parameter', spec' ::
      && Asked(c, callable, catalog, parameter, spec) && Asked(c, callable, catalog, parameter', spec')
      && spec.key == key && spec'.key == key && !Alike(parameter, spec, parameter', spec')
  }

  /** The reason that an error gives is a fact about the contract and the snapshot. */
  ghost predicate Justified(c: Contract, catalog: Catalog, error: CompileError) {
    var found := CallableById(catalog, c.callableId);
    match error
    case WrongRevision => c.origin.revision != catalog.revision
    case WrongPath => c.origin.pythonPath != catalog.pythonPath
    case SyntaxErrors => catalog.hasErrors
    case NoSuchCallable => found.None?
    case Unsupported => found.Some? && !PlainCallable(found.value, catalog)
    case NotAMethod => found.Some? && found.value.kind != InstanceMethod && c.constructorArguments != []
    case UnknownParameters => found.Some? && PlainCallable(found.value, catalog) &&
      (SupportedIff(found.value, catalog);
       Unknown(ConstructorDefs(found.value, catalog), c.constructorArguments)
         || Unknown(found.value.parameters, c.arguments))
    case MissingBindings => found.Some? && PlainCallable(found.value, catalog) &&
      (SupportedIff(found.value, catalog);
       Missing(ConstructorDefs(found.value, catalog), c.constructorArguments)
         || Missing(found.value.parameters, c.arguments))
    case ConflictingParameter(key) => found.Some? && PlainCallable(found.value, catalog) &&
      (SupportedIff(found.value, catalog);
       Conflict(c, found.value, catalog, key))
    case MalformedTarget =>
      found.Some? && found.value.classTarget.Some? && found.value.classTarget.value != ""
        && ':' !in found.value.classTarget.value
  }

  lemma ValidateReasons(parameters: seq<Parameter>, bindings: Bindings)
    ensures match Validate(parameters, NamesOf(bindings))
      case None => true
      case Some(error) =>
        || (error == UnknownParameters && Unknown(parameters, bindings))
        || (error == MissingBindings && Missing(parameters, bindings))
  {
    if HasUnknown(parameters, NamesOf(bindings)) {
      var name :| name in NamesOf(bindings) && name !in ByName(parameters);
      var i :| 0 <= i < |bindings| && bindings[i].0 == name;
      assert forall j :: 0 <= j < |parameters| ==> parameters[j].name in Named(parameters);
    } else if HasMissing(parameters, NamesOf(bindings)) {
      assert forall i :: 0 <= i < |bindings| ==> bindings[i].0 in NamesOf(bindings);
    }
  }

  /** A conflict is between two definitions of the key it names. */
  lemma {:induction false} ConflictsAreReal(defs: map<string, Parameter>, bindings: Bindings, table: ParameterTable)
    requires ValidBindings(bindings) && Known(defs, bindings) && Keyed(table)
    requires DeclareAll(defs, bindings, table).Err?
    ensures DeclareAll(defs, bindings, table).error.ConflictingParameter?
    ensures var key := DeclareAll(defs, bindings, table).error.key;
      exists a, b :: a in table.Values + Demands(defs, bindings) && b in Demands(defs, bindings)
        && a.key == key && b.key == key && !Same(a, b)
    decreases |bindings|
  {
    hide Same, Demands;
    var last := |bindings| - 1;
    var rest := bindings[..last];
    DemandsGrow(defs, bindings);
    if DeclareAll(defs, rest, table).Err? {
      ConflictsAreReal(defs, rest, table);
    } else {
      DeclareAllSpec(defs, rest, table);
      var table' := DeclareAll(defs, rest, table).value;
      var b := Compiled(defs[bindings[last].0], bindings[last].1.parameter.value);
      assert !Same(table'[b.key], b) && table'[b.key] in table.Values + Demands(defs, rest);
    }
  }

  lemma DeclaredConflict(c: Contract, callable: Callable, catalog: Catalog)
    requires Ready(c, callable, catalog) && Declared(c, callable, catalog).Err?
    ensures Declared(c, callable, catalog).error.ConflictingParameter?
    ensures Conflict(c, callable, catalog, Declared(c, callable, catalog).error.key)
  {
    hide Same, Demands, Alike, Asked, Describes, DescriptionOf, ByName, DeclareAll, Supported, ValidBindings;
    var (first, second) := (ConstructorDemands(c, callable, catalog), ArgumentDemands(c, callable, catalog));
    var table := DeclareAll(ConstructorMap(callable, catalog), c.constructorArguments, map[]);
    EmptyIsKeyed();
    var key: string;
    var a, b;
    if table.Err? {
      ConflictsAreReal(ConstructorMap(callable, catalog), c.constructorArguments, map[]);
      key := table.error.key;
      a, b :| a in first && b in first && a.key == key && b.key == key && !Same(a, b);
    } else {
      DeclareAllSpec(ConstructorMap(callable, catalog), c.constructorArguments, map[]);
      ConflictsAreReal(ByName(callable.parameters), c.arguments, table.value);
      key := Declared(c, callable, catalog).error.key;
      assert table.value.Values <= first;
      a, b :| a in first + second && b in second && a.key == key && b.key == key && !Same(a, b);
    }
    DemandedIff(c, callable, catalog, a);
    DemandedIff(c, callable, catalog, b);
    var parameter, spec :| Asked(c, callable, catalog, parameter, spec) && Describes(a, parameter, spec);
    var parameter', spec' :| Asked(c, callable, catalog, parameter', spec') && Describes(b, parameter', spec');
    KeyOfDescribed(a, parameter, spec);
    KeyOfDescribed(b, parameter', spec');
    SameIff(a, b, parameter, spec, parameter', spec');
  }

  /** Whatever error compiling reports, it is so. */
  lemma RefusalsAreJustified(c: Contract, catalog: Catalog)
    requires ValidContract(c) && Compile(c, catalog).Err?
    ensures Justified(c, catalog, Compile(c, catalog).error)
  {
    hide Supported, PlainCallable, Validate, Declared, Payloads, InKeyOrder, SplitTarget, CallableById, Conflict;
    hide Unknown, Missing, DigestOf, MetadataKeys, ValidBindings, ValidOutput;
    var found := CallableById(catalog, c.callableId);
    if found.Some? {
      var callable := found.value;
      SupportedIff(callable, catalog);
      if callable.classTarget.Some? { SplitsIff(callable.classTarget.value); }
      NoNames(c.constructorArguments);
      if Supported(callable, catalog) {
        ValidateReasons(ConstructorDefs(callable, catalog), c.constructorArguments);
        ValidateReasons(callable.parameters, c.arguments);
        if Selected(c, catalog).Ok? {
          SelectedIsReady(c, catalog);
          if Declared(c, callable, catalog).Err? { DeclaredConflict(c, callable, catalog); }
        }
      }
    }
  }

  // ---------------------------------------------------------------- what the plan lists

  /** In the order of their keys. */
  predicate ByKey(parameters: seq<CompiledParameter>) {
    forall i, j :: 0 <= i < j < |parameters| ==> Before(parameters[i].key, parameters[j].key)
  }

  /** The parameter is as a binding of these defines it. */
  ghost predicate DefinedBy(defs: map<string, Parameter>, bindings: Bindings, p: CompiledParameter) {
    exists parameter, spec :: AsksAs(defs, bindings, parameter, spec) && Describes(p, parameter, spec)
  }

  ghost predicate NoneDefines(defs: map<string, Parameter>, bindings: Bindings, key: string) {
    forall parameter, spec :: AsksAs(defs, bindings, parameter, spec) ==> spec.key != key
  }

  /** As an argument binding defines it, or as a constructor binding does if no argument binding defines its key. */
  ghost predicate DefinedFor(c: Contract, callable: Callable, catalog: Catalog, p: CompiledParameter)
    requires Supported(callable, catalog)
  {
    || DefinedBy(ByName(callable.parameters), c.arguments, p)
    || (&& NoneDefines(ByName(callable.parameters), c.arguments, p.key)
        && DefinedBy(ByName(ConstructorDefs(callable, catalog)), c.constructorArguments, p))
  }

  lemma NoneDefinesIff(defs: map<string, Parameter>, bindings: Bindings, key: string)
    requires ValidBindings(bindings) && Known(defs, bindings) && key !in KeysIn(Demands(defs, bindings))
    ensures NoneDefines(defs, bindings, key)
  {
    hide Demands, Describes, DescriptionOf, AsksAs;
    forall parameter, spec | AsksAs(defs, bindings, parameter, spec) ensures spec.key != key {
      var p := DescriptionOf(parameter, spec);
      DemandIff(defs, bindings, p);
      KeyOfDescribed(p, parameter, spec);
      assert p in Demands(defs, bindings);
    }
  }

  lemma TableDescribes(c: Contract, callable: Callable, catalog: Catalog, table: ParameterTable, key: string)
    requires Ready(c, callable, catalog) && key in table
    requires Overrules(table, ConstructorDemands(c, callable, catalog), ArgumentDemands(c, callable, catalog))
    ensures table[key].key == key && DefinedFor(c, callable, catalog, table[key])
  {
    hide AsksAs, Describes, Demands, KeysIn;
    var (defs, constructor_) := (ByName(callable.parameters), ByName(ConstructorDefs(callable, catalog)));
    DemandIff(defs, c.arguments, table[key]);
    DemandIff(constructor_, c.constructorArguments, table[key]);
    if key !in KeysIn(ArgumentDemands(c, callable, catalog)) { NoneDefinesIff(defs, c.arguments, key); }
  }

  /**
   * The plan of a contract: its own origin and output; the operator parameters in the order of
   * their keys, each as a binding defines it, arguments before constructor arguments; the
   * attributes its bindings read and those it writes, in order.
   */
  lemma PlanDescribes(c: Contract, catalog: Catalog)
    requires ValidContract(c) && Compile(c, catalog).Ok?
    ensures Selected(c, catalog).Ok? && Supported(Selected(c, catalog).value, catalog)
    ensures var (plan, callable) := (Compile(c, catalog).value, Selected(c, catalog).value);
      && plan.origin == c.origin && plan.output == c.output && plan.digest == DigestOf(c)
      && ByKey(plan.parameters)
      && (forall i :: 0 <= i < |plan.parameters| ==> DefinedFor(c, callable, catalog, plan.parameters[i]))
      && Increasing(plan.outputMetadata)
      && (forall name :: name in plan.outputMetadata <==> name in c.output.metadata)
  {
    hide Selected, ValidBindings, Known, Supported, TargetPayload, Declared, Payloads, AsMap, DefinedFor, ByName;
    hide ConstructorDemands, ArgumentDemands, Consistent, MetadataKeys, Overrules, Before, DigestOf;
    var callable := Selected(c, catalog).value;
    SelectedIsReady(c, catalog);
    DeclaredSpec(c, callable, catalog);
    var table := Declared(c, callable, catalog).value;
    forall key | key in table ensures table[key].key == key && DefinedFor(c, callable, catalog, table[key]) {
      TableDescribes(c, callable, catalog, table, key);
    }
    OrderedByKey(table);
  }

  lemma OrderedByKey(table: ParameterTable)
    requires forall key :: key in table ==> table[key].key == key
    ensures ByKey(InKeyOrder(table)) && forall i :: 0 <= i < |InKeyOrder(table)| ==>
      InKeyOrder(table)[i].key in table && InKeyOrder(table)[i] == table[InKeyOrder(table)[i].key]
  {
    hide Before;
    var keys := Sorted(table.Keys);
    assert forall i :: 0 <= i < |keys| ==> keys[i] in table;
  }
}
