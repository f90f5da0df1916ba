/** The two backends compute the same thing, and the runner's attribute filters never show. */
module AdapterTheorems {
  import opened Prelude
  import opened Names
  import opened Contracts
  import opened Compiler
  import opened CompilerTheorems
  import opened Adapters

  // ---------------------------------------------------------------- gathering arguments

  predicate Collected(kwargs: Kwargs, names: seq<string>, bindings: CompiledBindings,
                      resolve: CompiledBinding -> Resolved)
    requires forall name :: name in names ==> name in bindings
  {
    && (forall name :: name in kwargs ==>
          name in names && resolve(bindings[name]) == Ok(Some(kwargs[name])))
    && (forall name :: name in names && name !in kwargs ==> resolve(bindings[name]) == Ok(None))
  }

  /** Arguments are built exactly when every binding resolves, and hold exactly what was given. */
  lemma {:induction false} GatherSpec(names: seq<string>, bindings: CompiledBindings,
                                      resolve: CompiledBinding -> Resolved)
    requires forall name :: name in names ==> name in bindings
    ensures match Gather(names, bindings, resolve)
      case Ok(kwargs) => Collected(kwargs, names, bindings, resolve)
      case Err(error) => exists name :: name in names && resolve(bindings[name]) == Err(error)
    decreases |names|
  {
    if names != [] {
      var last := |names| - 1;
      assert names == names[..last] + [names[last]];
      GatherSpec(names[..last], bindings, resolve);
    }
  }

  lemma {:induction false} GatherAgrees(names: seq<string>, bindings: CompiledBindings, f: CompiledBinding -> Resolved,
                                        g: CompiledBinding -> Resolved)
    requires forall name :: name in names ==> name in bindings && f(bindings[name]) == g(bindings[name])
    ensures Gather(names, bindings, f) == Gather(names, bindings, g)
    decreases |names|
  {
    if names != [] { GatherAgrees(names[..|names| - 1], bindings, f, g); }
  }

  // ---------------------------------------------------------------- what a compiled plan may ask for

  function ParameterKeys(plan: Plan): set<string> {
    set i | 0 <= i < |plan.parameters| :: plan.parameters[i].key
  }

  /** A binding asks only for attributes and parameters the plan declares. */
  predicate AsksWithin(b: CompiledBinding, attributes: seq<string>, parameters: set<string>) {
    && (b.source.InputMetadata? ==> b.metadataKey.Some? && b.metadataKey.value in attributes)
    && (b.source.OperatorParameter? ==> b.parameterKey.Some? && b.parameterKey.value in parameters)
  }

  predicate Closed(bindings: CompiledBindings, plan: Plan) {
    forall name :: name in bindings ==> AsksWithin(bindings[name], plan.inputMetadata, ParameterKeys(plan))
  }

  predicate Bound(defs: map<string, Parameter>, bindings: Bindings, payloads: CompiledBindings, name: string)
    requires ValidBindings(bindings)
  {
    exists i :: 0 <= i < |bindings| && bindings[i].0 == name && name in defs && name in payloads
      && payloads[name] == Payload(defs[name], bindings[i].1)
  }

  lemma PayloadIsBound(defs: map<string, Parameter>, bindings: Bindings, name: string)
    requires ValidBindings(bindings) && Known(defs, bindings) && name in Payloads(defs, bindings)
    ensures Bound(defs, bindings, Payloads(defs, bindings), name)
  {
    hide Payload;
    PayloadsSpec(defs, bindings, |bindings|);
    var i :| 0 <= i < |bindings| && bindings[i].0 == name;
    PayloadsSpec(defs, bindings, i);
  }

  lemma BindingAsks(defs: map<string, Parameter>, bindings: Bindings, name: string, attributes: seq<string>,
                    parameters: set<string>)
    requires ValidBindings(bindings) && Known(defs, bindings) && name in Payloads(defs, bindings)
    requires MetadataKeys(Payloads(defs, bindings)) <= (set a | a in attributes)
    requires KeysIn(Demands(defs, bindings)) <= parameters
    ensures AsksWithin(Payloads(defs, bindings)[name], attributes, parameters)
  {
    hide Payloads;
    PayloadIsBound(defs, bindings, name);
    var b := Payloads(defs, bindings)[name];
    var i :| 0 <= i < |bindings| && bindings[i].0 == name && b == Payload(defs[name], bindings[i].1);
    assert ValidBinding(bindings[i].1);
    if b.source.InputMetadata? {
      assert b.metadataKey.value in MetadataKeys(Payloads(defs, bindings));
    }
    if b.source.OperatorParameter? {
      assert Compiled(defs[name], bindings[i].1.parameter.value) in Demands(defs, bindings);
      assert b.parameterKey.value in KeysIn(Demands(defs, bindings));
    }
  }

  lemma ListedKeys(table: ParameterTable)
    requires Keyed(table)
    ensures (set i | 0 <= i < |InKeyOrder(table)| :: InKeyOrder(table)[i].key) == table.Keys
  {
    var keys := Sorted(table.Keys);
    forall key | key in table.Keys ensures key in set i | 0 <= i < |InKeyOrder(table)| :: InKeyOrder(table)[i].key {
      var i :| 0 <= i < |keys| && keys[i] == key;
      assert InKeyOrder(table)[i].key == key;
    }
  }

  lemma CompiledIsClosed(c: Contract, catalog: Catalog)
    requires ValidContract(c) && Compile(c, catalog).Ok?
    ensures var plan := Compile(c, catalog).value;
      Closed(plan.constructorArguments, plan) && Closed(plan.arguments, plan)
  {
    hide Selected, ValidBindings, Known, Supported, TargetPayload, Declared, Payloads, AsMap, InKeyOrder, Demands;
    hide MetadataKeys, AsksWithin, ByName, ConstructorDefs, Consistent, KeysIn;
    var plan := Compile(c, catalog).value;
    var callable := Selected(c, catalog).value;
    SelectedIsReady(c, catalog);
    DeclaredSpec(c, callable, catalog);
    var table := Declared(c, callable, catalog).value;
    ListedKeys(table);
    assert ParameterKeys(plan) == table.Keys;
    forall name | name in plan.constructorArguments
      ensures AsksWithin(plan.constructorArguments[name], plan.inputMetadata, ParameterKeys(plan))
    {
      BindingAsks(ConstructorMap(callable, catalog), c.constructorArguments, name, plan.inputMetadata,
                  ParameterKeys(plan));
    }
    forall name | name in plan.arguments
      ensures AsksWithin(plan.arguments[name], plan.inputMetadata, ParameterKeys(plan))
    {
      BindingAsks(ByName(callable.parameters), c.arguments, name, plan.inputMetadata, ParameterKeys(plan));
    }
  }

  predicate AsksFor(bindings: Bindings, key: string) {
    exists i :: 0 <= i < |bindings| && bindings[i].1.source.InputMetadata? && bindings[i].1.metadataKey == Some(key)
  }

  lemma MetadataKeysAre(defs: map<string, Parameter>, bindings: Bindings, key: string)
    requires ValidBindings(bindings) && Known(defs, bindings)
    ensures key in MetadataKeys(Payloads(defs, bindings)) <==> AsksFor(bindings, key)
  {
    hide Payloads;
    var payloads := Payloads(defs, bindings);
    if key in MetadataKeys(payloads) {
      var name :| name in payloads && payloads[name].source.InputMetadata? && Truthy(payloads[name].metadataKey)
        && payloads[name].metadataKey.value == key;
      PayloadIsBound(defs, bindings, name);
    }
    if AsksFor(bindings, key) {
      var i :| 0 <= i < |bindings| && bindings[i].1.source.InputMetadata? && bindings[i].1.metadataKey == Some(key);
      PayloadsSpec(defs, bindings, |bindings|);
      PayloadsSpec(defs, bindings, i);
      assert ValidBinding(bindings[i].1);
      assert payloads[bindings[i].0].metadataKey == Some(key);
    }
  }

  /** The plan lists exactly the attributes and the parameters its contract's bindings ask for, in order. */
  lemma PlanListsExactly(c: Contract, catalog: Catalog, key: string)
    requires ValidContract(c) && Compile(c, catalog).Ok?
    ensures var plan := Compile(c, catalog).value;
      && Increasing(plan.inputMetadata)
      && (key in plan.inputMetadata <==> AsksFor(c.constructorArguments, key) || AsksFor(c.arguments, key))
      && (key in ParameterKeys(plan) <==> Defined(c.constructorArguments, key) || Defined(c.arguments, key))
  {
    hide Selected, ValidBindings, Known, Supported, TargetPayload, Declared, Payloads, AsMap, InKeyOrder, Demands;
    hide MetadataKeys, AsksFor, Defined, ByName, ConstructorDefs, Consistent, KeysIn, Increasing;
    var plan := Compile(c, catalog).value;
    var callable := Selected(c, catalog).value;
    SelectedIsReady(c, catalog);
    MetadataKeysAre(ConstructorMap(callable, catalog), c.constructorArguments, key);
    MetadataKeysAre(ByName(callable.parameters), c.arguments, key);
    DemandIsDefined(ConstructorMap(callable, catalog), c.constructorArguments, key);
    DemandIsDefined(ByName(callable.parameters), c.arguments, key);
    DeclaredSpec(c, callable, catalog);
    ListedKeys(Declared(c, callable, catalog).value);
    assert ParameterKeys(plan) == Declared(c, callable, catalog).value.Keys;
  }

  // ---------------------------------------------------------------- the runner's filters

  lemma FilterHides(w: World, b: CompiledBinding, inputs: Inputs, allowed: seq<string>, parameters: set<string>)
    requires AsksWithin(b, allowed, parameters)
    ensures Resolve(w, b, inputs.(attributes := Filter(inputs.attributes, allowed))) == Resolve(w, b, inputs)
  {
    hide Decode;
  }

  /** Filtered attributes give the same arguments as all of them. */
  lemma FilteredKwargs(w: World, plan: Plan, bindings: CompiledBindings, inputs: Inputs)
    requires Closed(bindings, plan)
    ensures RunnerKwargs(w, bindings, inputs.(attributes := Filter(inputs.attributes, plan.inputMetadata)))
      == RunnerKwargs(w, bindings, inputs)
  {
    hide Resolve, AsksWithin, Filter;
    var filtered := inputs.(attributes := Filter(inputs.attributes, plan.inputMetadata));
    forall name | name in bindings ensures Resolve(w, bindings[name], filtered) == Resolve(w, bindings[name], inputs) {
      FilterHides(w, bindings[name], inputs, plan.inputMetadata, ParameterKeys(plan));
    }
    GatherAgrees(Sorted(bindings.Keys), bindings, b => Resolve(w, b, filtered), b => Resolve(w, b, inputs));
  }

  lemma FilterAll<T>(values: map<string, T>, allowed: seq<string>)
    requires forall key :: key in values ==> key in allowed
    ensures Filter(values, allowed) == values
  {
    if allowed == [] { assert values.Keys == {}; }
  }

  /** Both lists are sorted, and no attribute a binding asks for has an empty name. */
  lemma SortedLists(c: Contract, catalog: Catalog)
    requires ValidContract(c) && Compile(c, catalog).Ok?
    ensures var plan := Compile(c, catalog).value;
      Increasing(plan.inputMetadata) && Increasing(plan.outputMetadata) && "" !in plan.inputMetadata
  {
    hide Selected, ValidBindings, Known, Supported, TargetPayload, Declared, Payloads, AsMap, InKeyOrder, Increasing;
  }

  /** A plan is published with its own lists, and refused exactly when an output attribute has no name. */
  lemma PublishedLists(c: Contract, catalog: Catalog)
    requires ValidContract(c) && Compile(c, catalog).Ok?
    ensures var plan := Compile(c, catalog).value;
      Publish(plan) == if "" in c.output.metadata then None else Some(Release(plan.inputMetadata, plan.outputMetadata))
  {
    hide Compile, ValidContract;
    var plan := Compile(c, catalog).value;
    PlanLists(c, catalog);
    SortedLists(c, catalog);
    SortedAgain(plan.inputMetadata);
    SortedAgain(plan.outputMetadata);
  }

  lemma ProcessFiltered(w: World, plan: Plan, content: seq<Byte>, attributes: map<string, Value>,
                        parameters: map<string, Value>)
    requires Closed(plan.constructorArguments, plan) && Closed(plan.arguments, plan)
    ensures Process(w, plan, content, Filter(attributes, plan.inputMetadata), parameters)
      == Process(w, plan, content, attributes, parameters)
  {
    hide RunnerKwargs, Called, Finish, Filter, Closed;
    var inputs := Inputs(Bytes(content), attributes, parameters);
    FilteredKwargs(w, plan, plan.constructorArguments, inputs);
    FilteredKwargs(w, plan, plan.arguments, inputs);
  }

  lemma ProcessNames(w: World, plan: Plan, content: seq<Byte>, attributes: map<string, Value>,
                     parameters: map<string, Value>)
    requires Process(w, plan, content, attributes, parameters).Ok?
    ensures Process(w, plan, content, attributes, parameters).value.attributes.Keys == plan.output.metadata.Keys
  {
    hide RunnerKwargs, Called, OutputOf, EncodePayload;
  }

  lemma PlanLists(c: Contract, catalog: Catalog)
    requires ValidContract(c) && Compile(c, catalog).Ok?
    ensures var plan := Compile(c, catalog).value;
      plan.output == c.output && forall name :: name in plan.outputMetadata <==> name in c.output.metadata
  {
    hide Selected, ValidBindings, Known, Supported, TargetPayload, Declared, Payloads, AsMap, InKeyOrder;
  }

  /** Exactly the listed keys get through, with their values. */
  lemma FilterSpec<T>(values: map<string, T>, allowed: seq<string>)
    ensures forall key :: key in Filter(values, allowed) <==> key in values && key in allowed
    ensures forall key :: key in Filter(values, allowed) ==> Filter(values, allowed)[key] == values[key]
  {
  }

  /**
   * Whatever the adapter does, the runner lets it see no attribute that the release does not list,
   * and lets no attribute out that the release does not list.
   */
  lemma ServedIsGuarded(w: World, plan: Plan, release: Release, content: seq<Byte>, attributes: map<string, Value>,
                        others: map<string, Value>, parameters: map<string, Value>)
    requires forall key :: key in release.inputAttributes ==>
      (key in attributes <==> key in others) && (key in attributes ==> attributes[key] == others[key])
    ensures Served(w, plan, release, content, others, parameters)
      == Served(w, plan, release, content, attributes, parameters)
    ensures var answer := Served(w, plan, release, content, attributes, parameters);
      answer.Ok? ==> forall name :: name in answer.value.attributes ==>
        && name in release.outputAttributes
        && exists whole :: name in whole && whole[name] == answer.value.attributes[name]
             && Process(w, plan, content, Filter(attributes, release.inputAttributes), parameters)
                  == Ok(Answer(answer.value.content, whole))
  {
    hide Process, Filter;
    FilterSpec(attributes, release.inputAttributes);
    FilterSpec(others, release.inputAttributes);
    assert Filter(attributes, release.inputAttributes) == Filter(others, release.inputAttributes);
    var answer := Process(w, plan, content, Filter(attributes, release.inputAttributes), parameters);
    if answer.Ok? {
      FilterSpec(answer.value.attributes, release.outputAttributes);
      var whole := answer.value.attributes;
      assert answer == Ok(Answer(answer.value.content, whole));
    }
  }

  /** Between the two filters that a plan lists itself, the adapter computes what it computes without them. */
  lemma ServedOwnLists(w: World, c: Contract, catalog: Catalog, content: seq<Byte>, attributes: map<string, Value>,
                       parameters: map<string, Value>)
    requires ValidContract(c) && Compile(c, catalog).Ok?
    ensures var plan := Compile(c, catalog).value;
      Served(w, plan, Release(plan.inputMetadata, plan.outputMetadata), content, attributes, parameters)
        == Process(w, plan, content, attributes, parameters)
  {
    hide Compile, ValidContract, Process, Filter, Closed;
    var plan := Compile(c, catalog).value;
    PlanLists(c, catalog);
    CompiledIsClosed(c, catalog);
    ProcessFiltered(w, plan, content, attributes, parameters);
    var answer := Process(w, plan, content, attributes, parameters);
    if answer.Ok? {
      ProcessNames(w, plan, content, attributes, parameters);
      FilterAll(answer.value.attributes, plan.outputMetadata);
    }
  }

  /** What the runner serves for a published contract is the adapter itself, filters and all. */
  lemma ServedIsProcess(w: World, c: Contract, catalog: Catalog, content: seq<Byte>, attributes: map<string, Value>,
                        parameters: map<string, Value>)
    requires ValidContract(c) && Compile(c, catalog).Ok? && Publish(Compile(c, catalog).value).Some?
    ensures var plan := Compile(c, catalog).value;
      Served(w, plan, Publish(plan).value, content, attributes, parameters)
        == Process(w, plan, content, attributes, parameters)
  {
    hide Compile, ValidContract, Process, Publish, Served;
    PublishedLists(c, catalog);
    ServedOwnLists(w, c, catalog, content, attributes, parameters);
  }

  // ---------------------------------------------------------------- well-formed calls

  predicate InputFailure(failure: Failure) {
    failure.NotDecodable? || failure.MissingMetadata? || failure.MissingParameter?
  }

  /** Keyword arguments that a callable with these parameters accepts. */
  predicate Accepted(kwargs: Kwargs, parameters: seq<Parameter>) {
    && kwargs.Keys <= Named(parameters)
    && (forall name :: name in ByName(parameters) && ByName(parameters)[name].required ==> name in kwargs)
  }

  predicate WellFormed(kwargs: Result<Kwargs, Failure>, parameters: seq<Parameter>) {
    match kwargs
    case Ok(values) => Accepted(values, parameters)
    case Err(failure) => InputFailure(failure)
  }

  /** A resolver that leaves out only what is not required. */
  predicate LeavesOutOptional(resolve: CompiledBinding -> Resolved, b: CompiledBinding) {
    match resolve(b)
    case Ok(v) => v.None? ==> !b.required
    case Err(failure) => InputFailure(failure)
  }

  lemma ResolversLeaveOutOptional(w: World, b: CompiledBinding, inputs: Inputs)
    ensures LeavesOutOptional(b => Resolve(w, b, inputs), b) && LeavesOutOptional(b => NativeResolve(w, b, inputs), b)
  {
  }

  /** Collected arguments are known parameters, and every required one is there. */
  lemma CollectedIsAccepted(parameters: seq<Parameter>, bindings: Bindings, resolve: CompiledBinding -> Resolved,
                            kwargs: Kwargs)
    requires ValidBindings(bindings) && Known(ByName(parameters), bindings)
    requires !HasMissing(parameters, NamesOf(bindings))
    requires forall b :: LeavesOutOptional(resolve, b)
    requires var payloads := Payloads(ByName(parameters), bindings);
      Collected(kwargs, Sorted(payloads.Keys), payloads, resolve)
    ensures Accepted(kwargs, parameters)
  {
    hide Payloads, ByName, HasMissing, LeavesOutOptional;
    var payloads := Payloads(ByName(parameters), bindings);
    PayloadsSpec(ByName(parameters), bindings, |bindings|);
    forall name | name in ByName(parameters) && ByName(parameters)[name].required ensures name in kwargs {
      RequiredIsBound(parameters, bindings, name);
      if name !in kwargs { LeftOut(resolve, payloads[name]); }
    }
    forall name | name in kwargs ensures name in Named(parameters) {
      assert name in NamesOf(bindings);
    }
  }

  lemma GatheredIsAccepted(parameters: seq<Parameter>, bindings: Bindings, resolve: CompiledBinding -> Resolved)
    requires ValidBindings(bindings) && Known(ByName(parameters), bindings)
    requires !HasMissing(parameters, NamesOf(bindings))
    requires forall b :: LeavesOutOptional(resolve, b)
    ensures var payloads := Payloads(ByName(parameters), bindings);
      WellFormed(Gather(Sorted(payloads.Keys), payloads, resolve), parameters)
  {
    hide Payloads, ByName, Gather, HasMissing, LeavesOutOptional, Accepted, Collected;
    var payloads := Payloads(ByName(parameters), bindings);
    var names := Sorted(payloads.Keys);
    GatherSpec(names, payloads, resolve);
    var kwargs := Gather(names, payloads, resolve);
    if kwargs.Ok? {
      CollectedIsAccepted(parameters, bindings, resolve, kwargs.value);
    } else {
      var name :| name in names && resolve(payloads[name]) == Err(kwargs.error);
      Failed(resolve, payloads[name]);
    }
  }

  lemma LeftOut(resolve: CompiledBinding -> Resolved, b: CompiledBinding)
    requires LeavesOutOptional(resolve, b) && resolve(b) == Ok(None)
    ensures !b.required
  {
  }

  lemma Failed(resolve: CompiledBinding -> Resolved, b: CompiledBinding)
    requires LeavesOutOptional(resolve, b) && resolve(b).Err?
    ensures InputFailure(resolve(b).error)
  {
  }

  lemma RequiredIsBound(parameters: seq<Parameter>, bindings: Bindings, name: string)
    requires ValidBindings(bindings) && Known(ByName(parameters), bindings)
    requires !HasMissing(parameters, NamesOf(bindings))
    requires name in ByName(parameters) && ByName(parameters)[name].required
    ensures name in Payloads(ByName(parameters), bindings) && Payloads(ByName(parameters), bindings)[name].required
  {
    hide Payloads;
    var p := ByName(parameters)[name];
    var k :| 0 <= k < |parameters| && parameters[k] == p;
    assert name in NamesOf(bindings);
    PayloadsSpec(ByName(parameters), bindings, |bindings|);
    var i :| 0 <= i < |bindings| && bindings[i].0 == name;
    PayloadsSpec(ByName(parameters), bindings, i);
  }

  /**
   * Given the compiled plan and whatever input, each adapter either reports an input it cannot decode or misses, or
   * passes every required parameter and no unknown one, to the constructor and to the callable.
   */
  lemma PlanCallsAreWellFormed(w: World, c: Contract, catalog: Catalog, inputs: Inputs)
    requires ValidContract(c) && Compile(c, catalog).Ok?
    ensures var (plan, callable) := (Compile(c, catalog).value, Selected(c, catalog).value);
      && WellFormed(RunnerKwargs(w, plan.constructorArguments, inputs), ConstructorDefs(callable, catalog))
      && WellFormed(NativeKwargs(w, plan.constructorArguments, inputs), ConstructorDefs(callable, catalog))
      && WellFormed(RunnerKwargs(w, plan.arguments, inputs), callable.parameters)
      && WellFormed(NativeKwargs(w, plan.arguments, inputs), callable.parameters)
  {
    hide Selected, ValidBindings, Known, Supported, TargetPayload, Declared, Payloads, AsMap, InKeyOrder;
    hide LeavesOutOptional, WellFormed, HasMissing, HasUnknown, Resolve, NativeResolve, ConstructorDefs;
    var callable := Selected(c, catalog).value;
    SelectedIsReady(c, catalog);
    var (runner, native) :=
      ((b: CompiledBinding) => Resolve(w, b, inputs), (b: CompiledBinding) => NativeResolve(w, b, inputs));
    forall b ensures LeavesOutOptional(runner, b) && LeavesOutOptional(native, b) {
      ResolversLeaveOutOptional(w, b, inputs);
    }
    GatheredIsAccepted(ConstructorDefs(callable, catalog), c.constructorArguments, runner);
    GatheredIsAccepted(ConstructorDefs(callable, catalog), c.constructorArguments, native);
    GatheredIsAccepted(callable.parameters, c.arguments, runner);
    GatheredIsAccepted(callable.parameters, c.arguments, native);
  }

  // ---------------------------------------------------------------- the backends agree

  /** What the runner would see of NiFi's values: no None, no bytearray. */
  function Plain(values: map<string, Value>): map<string, Value> {
    map key | key in values && !values[key].Nil? :: Frozen(values[key])
  }

  function PlainInputs(inputs: Inputs): Inputs {
    Inputs(Frozen(inputs.content), Plain(inputs.attributes), Plain(inputs.parameters))
  }

  lemma NativeResolvesPlain(w: World, b: CompiledBinding, inputs: Inputs)
    ensures NativeResolve(w, b, inputs) == Resolve(w, b, PlainInputs(inputs))
  {
    hide Decode;
  }

  /** On any input the native adapter builds the arguments the runner's builds on its plain form. */
  lemma NativeArguments(w: World, bindings: CompiledBindings, inputs: Inputs)
    ensures NativeKwargs(w, bindings, inputs) == RunnerKwargs(w, bindings, PlainInputs(inputs))
  {
    hide NativeResolve, Resolve;
    forall b ensures NativeResolve(w, b, inputs) == Resolve(w, b, PlainInputs(inputs)) {
      NativeResolvesPlain(w, b, inputs);
    }
    GatherAgrees(Sorted(bindings.Keys), bindings, b => NativeResolve(w, b, inputs),
                 b => Resolve(w, b, PlainInputs(inputs)));
  }

  /** Parameters the plan does not declare are never looked at. */
  predicate SameOn(parameters: map<string, Value>, parameters': map<string, Value>, keys: set<string>) {
    forall key :: key in keys ==> (key in parameters <==> key in parameters') && (key in parameters ==>
      parameters[key] == parameters'[key])
  }

  lemma DeclaredParametersDecide(w: World, plan: Plan, bindings: CompiledBindings, inputs: Inputs,
                                 parameters: map<string, Value>)
    requires Closed(bindings, plan) && SameOn(inputs.parameters, parameters, ParameterKeys(plan))
    ensures RunnerKwargs(w, bindings, inputs.(parameters := parameters)) == RunnerKwargs(w, bindings, inputs)
  {
    hide Resolve, AsksWithin, ParameterKeys, SameOn;
    var inputs' := inputs.(parameters := parameters);
    forall name | name in bindings ensures Resolve(w, bindings[name], inputs') == Resolve(w, bindings[name], inputs) {
      DeclaredParameterDecides(w, bindings[name], inputs, parameters, plan.inputMetadata, ParameterKeys(plan));
    }
    GatherAgrees(Sorted(bindings.Keys), bindings, b => Resolve(w, b, inputs'), b => Resolve(w, b, inputs));
  }

  lemma DeclaredParameterDecides(w: World, b: CompiledBinding, inputs: Inputs, parameters: map<string, Value>,
                                 attributes: seq<string>, keys: set<string>)
    requires AsksWithin(b, attributes, keys) && SameOn(inputs.parameters, parameters, keys)
    ensures Resolve(w, b, inputs.(parameters := parameters)) == Resolve(w, b, inputs)
  {
    hide Decode;
  }

  /** Both succeed with the same answer, or both fail. */
  predicate Agree(a: Result<Answer, Failure>, b: Result<Answer, Failure>) {
    a.Ok? == b.Ok? && (a.Ok? ==> a == b)
  }

  lemma EncodingsAgree(w: World, v: Value, codec: Codec)
    ensures var (raw, native) := (EncodePayload(w, v, codec), NativeEncodePayload(w, v, codec));
      match native
      case Err(_) => raw == Err(NotEncodable)
      case Ok(Raw(bytes)) => raw == Ok(bytes)
      case Ok(Characters(text)) => raw == Guard(w.encode(text), NotEncodable)
      case Ok(Unchanged) => false
  {
  }

  /** The processor's properties as the parameters of a runner request. */
  predicate SameParameters(plan: Plan, property: string -> Option<string>, parameters: map<string, Value>) {
    forall key :: key in ParameterKeys(plan) ==>
      if property(key).Some? then key in parameters && parameters[key] == Text(property(key).value)
      else key !in parameters
  }

  lemma PropertiesMatch(plan: Plan, property: string -> Option<string>, parameters: map<string, Value>)
    requires SameParameters(plan, property, parameters)
    ensures SameOn(Plain(Properties(plan.parameters, property)), parameters, ParameterKeys(plan))
  {
    var given := Plain(Properties(plan.parameters, property));
    forall key | key in ParameterKeys(plan)
      ensures (key in given <==> key in parameters) && (key in given ==> given[key] == parameters[key])
    {
      var i :| 0 <= i < |plan.parameters| && plan.parameters[i].key == key;
      if property(plan.parameters[i].key).Some? { assert key in Properties(plan.parameters, property); }
    }
  }

  /** Both adapters call the operator with the same arguments. */
  lemma SameCall(w: World, plan: Plan, content: Value, metadata: map<string, Value>, property: string -> Option<string>,
                 parameters: map<string, Value>, bindings: CompiledBindings)
    requires Closed(bindings, plan) && SameParameters(plan, property, parameters)
    ensures NativeKwargs(w, bindings, Inputs(content, metadata, Properties(plan.parameters, property)))
      == RunnerKwargs(w, bindings, Inputs(Frozen(content), Plain(metadata), parameters))
  {
    hide Closed, SameParameters, NativeKwargs, RunnerKwargs, Plain, Properties;
    var inputs := Inputs(content, metadata, Properties(plan.parameters, property));
    NativeArguments(w, bindings, inputs);
    PropertiesMatch(plan, property, parameters);
    DeclaredParametersDecide(w, plan, bindings, PlainInputs(inputs), parameters);
  }

  /** From the same operator result, the runner's answer is NiFi's reading of the native one. */
  lemma FinishesAgree(w: World, output: Output, content: seq<Byte>, result: Value)
    ensures Agree(Finish(w, output, content, result), Read(w, content, NativeFinish(w, output, result)))
  {
    hide OutputOf, EncodePayload, NativeEncodePayload, OutputAttributes;
    var payload := OutputOf(w, result, output.payload);
    if payload.Ok? { EncodingsAgree(w, payload.value, output.payload.codec); }
  }

  /** After the same call, the runner's answer is NiFi's reading of the native one. */
  lemma AdaptersAgree(w: World, plan: Plan, content: Value, metadata: map<string, Value>,
                      property: string -> Option<string>, parameters: map<string, Value>)
    requires Closed(plan.constructorArguments, plan) && Closed(plan.arguments, plan)
    requires (content.Bytes? || content.ByteArray?) && SameParameters(plan, property, parameters)
    ensures Agree(Process(w, plan, content.bytes, Plain(metadata), parameters),
                  Read(w, content.bytes, Transform(w, plan, plan.parameters, content, metadata, property)))
  {
    hide Closed, SameParameters, NativeKwargs, RunnerKwargs, Plain, Properties, Called, Finish, NativeFinish;
    SameCall(w, plan, content, metadata, property, parameters, plan.constructorArguments);
    SameCall(w, plan, content, metadata, property, parameters, plan.arguments);
    var inputs := Inputs(Bytes(content.bytes), Plain(metadata), parameters);
    var result :=
      Called(w, plan, RunnerKwargs(w, plan.constructorArguments, inputs), RunnerKwargs(w, plan.arguments, inputs));
    if result.Ok? { FinishesAgree(w, plan.output, content.bytes, result.value); }
  }

  /**
   * For every contract that compiles and publishes, the runner's adapter behind its filters and
   * the native one, given the compiled plan, answer alike, or both fail.
   */
  lemma FilteredAdaptersAgree(w: World, c: Contract, catalog: Catalog, content: Value, metadata: map<string, Value>,
                      property: string -> Option<string>, parameters: map<string, Value>)
    requires ValidContract(c) && Compile(c, catalog).Ok? && "" !in c.output.metadata
    requires (content.Bytes? || content.ByteArray?) && SameParameters(Compile(c, catalog).value, property, parameters)
    ensures var plan := Compile(c, catalog).value;
      && Publish(plan).Some?
      && Agree(Served(w, plan, Publish(plan).value, content.bytes, Plain(metadata), parameters),
               Read(w, content.bytes, Transform(w, plan, plan.parameters, content, metadata, property)))
  {
    hide Compile, ValidContract, Served, Process, Transform, Read, Publish, SameParameters, Closed;
    CompiledIsClosed(c, catalog);
    PublishedLists(c, catalog);
    ServedIsProcess(w, c, catalog, content.bytes, Plain(metadata), parameters);
    AdaptersAgree(w, Compile(c, catalog).value, content, metadata, property, parameters);
  }

  // ---------------------------------------------------------------- order and meaning

  /** Even where order shows in the parameter list, what the adapter computes does not depend on it. */
  lemma MeaningIsOrderFree(w: World, c: Contract, c': Contract, catalog: Catalog, content: seq<Byte>,
                           attributes: map<string, Value>, parameters: map<string, Value>)
    requires ValidContract(c) && ValidContract(c') && Reordered(c, c')
    ensures Compile(c', catalog).Ok? <==> Compile(c, catalog).Ok?
    ensures Compile(c, catalog).Ok? ==>
      && Process(w, Compile(c', catalog).value, content, attributes, parameters)
           == Process(w, Compile(c, catalog).value, content, attributes, parameters)
      && Publish(Compile(c', catalog).value) == Publish(Compile(c, catalog).value)
  {
    hide Compile, ValidContract, Reordered, RunnerKwargs, Called, Finish;
    ReorderedCompiles(c, c', catalog);
    if Compile(c, catalog).Ok? {
      CalledAlike(w, Compile(c, catalog).value, Compile(c', catalog).value);
    }
  }

  lemma CalledAlike(w: World, plan: Plan, plan': Plan)
    requires AlikePlans(plan, plan')
    ensures forall ck, kw :: Called(w, plan', ck, kw) == Called(w, plan, ck, kw)
  {
  }
}
