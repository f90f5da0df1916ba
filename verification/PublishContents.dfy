/** What a filed variant holds, in the terms of the contract it was compiled from, and what serving it computes. */
module PublishContents {
  import opened Prelude
  import opened Names
  import opened Contracts
  import opened Compiler
  import opened CompilerTheorems
  import opened Adapters
  import opened AdapterTheorems
  import opened PlanContents
  import opened Backends
  import opened PublishStore
  import opened PublishService
  import opened PublishTheorems

  /** What comes back from the store for the contract of a row, and the snapshot it refers to. */
  function ParentOf(config: Config, row: Version): Contract {
    config.reload(row.contract)
  }

  function SnapshotOf(config: Config, row: Version): Catalog {
    var origin := ParentOf(config, row).origin;
    config.scan(if origin.ref.Some? then origin.ref.value else "", origin.pythonPath)
  }

  predicate Recompiles(config: Config, row: Version) {
    var parent := ParentOf(config, row);
    && ValidContract(parent) && parent.origin.ref.Some? && parent.origin.ref.value != ""
    && Compile(parent, SnapshotOf(config, row)).Ok?
  }

  /** Exactly the attributes the bindings of the contract read, in order. */
  ghost predicate ListsInputs(list: seq<string>, c: Contract) {
    Increasing(list) && forall key :: key in list <==> AsksFor(c.constructorArguments, key) || AsksFor(c.arguments, key)
  }

  /** Exactly the attributes the output of the contract writes, in order. */
  ghost predicate ListsOutputs(list: seq<string>, c: Contract) {
    Increasing(list) && forall name :: name in list <==> name in c.output.metadata
  }

  /** The operator parameters in the order of their keys, each as a binding of the contract defines it. */
  ghost predicate ListsParameters(list: seq<CompiledParameter>, c: Contract, catalog: Catalog)
    requires ValidContract(c) && Compile(c, catalog).Ok?
  {
    PlanDescribes(c, catalog);
    var callable := Selected(c, catalog).value;
    && ByKey(list) && (forall i :: 0 <= i < |list| ==> DefinedFor(c, callable, catalog, list[i]))
    && (forall key :: (exists i :: 0 <= i < |list| && list[i].key == key)
          <==> Defined(c.constructorArguments, key) || Defined(c.arguments, key))
  }

  /** Where a variant comes from: its row, the contract of the row and the plan of that contract. */
  predicate Inherits(heritage: Heritage, id: ContractId, row: Version, parent: Contract, key: VariantKey) {
    && heritage.id == id && heritage.number == row.number && heritage.key == key
    && heritage.fields == DigestOf(parent) && heritage.digest == DigestOf(parent)
  }

  lemma ContentsOf(config: Config, s: Service, v: VariantId)
    requires Reachable(config, s) && v in s.tables.variants
    ensures var variant := s.tables.variants[v];
      && variant.contract in s.tables.versions && Recompiles(config, s.tables.versions[variant.contract])
      && var row := s.tables.versions[variant.contract];
         var (parent, plan, key) :=
           (ParentOf(config, row), Compile(ParentOf(config, row), SnapshotOf(config, row)).value, variant.key);
         && Inherits(variant.content.heritage, variant.contract, row, parent, key)
         && key.digest == DigestOf(parent) && key.backend == variant.backend
         && (variant.backend == RunnerBackend ==>
               && variant.content.RunnerContract? && key.options.RunnerOptions?
               && key.compilerVersion == "runner-contract-v1"
               && variant.content.profile == key.options.profile && variant.content.name == parent.name
               && variant.content.inputAttributes == plan.inputMetadata
               && variant.content.outputAttributes == plan.outputMetadata
               && variant.content.parameters == plan.parameters)
         && (variant.backend == NifiNative ==>
               && variant.content.NativeContract? && key.options.NativeOptions?
               && key.compilerVersion == "nifi-native-contract-v1"
               && variant.content.className == key.options.className
               && variant.content.packageName == key.options.packageName
               && variant.content.properties == plan.parameters
               && config.requirements(parent.origin.ref.value) == Some(variant.content.requirements))
  {
    hide Reachable, Compile, ValidContract, DigestOf;
    VariantIsDerived(config, s, v);
    var row := s.tables.versions[s.tables.variants[v].contract];
    PlanDigest(ParentOf(config, row), SnapshotOf(config, row));
  }

  /**
   * A runner variant, in every reachable state, lists as inputs exactly the attributes its
   * contract's bindings read, as outputs exactly those its output writes, both in order, and as
   * parameters exactly those its bindings define.
   */
  lemma RunnerVariantLists(config: Config, s: Service, v: VariantId)
    requires Reachable(config, s) && v in s.tables.variants && s.tables.variants[v].backend == RunnerBackend
    ensures var variant := s.tables.variants[v];
      && variant.contract in s.tables.versions && Recompiles(config, s.tables.versions[variant.contract])
      && variant.content.RunnerContract?
      && var parent := ParentOf(config, s.tables.versions[variant.contract]);
         && ListsInputs(variant.content.inputAttributes, parent)
         && ListsOutputs(variant.content.outputAttributes, parent)
         && ListsParameters(variant.content.parameters, parent,
                            SnapshotOf(config, s.tables.versions[variant.contract]))
  {
    hide Reachable, Compile, ValidContract, DigestOf, ListsInputs, ListsOutputs, ListsParameters;
    ContentsOf(config, s, v);
    var row := s.tables.versions[s.tables.variants[v].contract];
    PlanListsAll(ParentOf(config, row), SnapshotOf(config, row));
  }

  /** A native variant lists as properties exactly those parameters, and the requirements of its source. */
  lemma NativeVariantLists(config: Config, s: Service, v: VariantId)
    requires Reachable(config, s) && v in s.tables.variants && s.tables.variants[v].backend == NifiNative
    ensures var variant := s.tables.variants[v];
      && variant.contract in s.tables.versions && Recompiles(config, s.tables.versions[variant.contract])
      && variant.content.NativeContract?
      && var parent := ParentOf(config, s.tables.versions[variant.contract]);
         && ListsParameters(variant.content.properties, parent,
                            SnapshotOf(config, s.tables.versions[variant.contract]))
         && config.requirements(parent.origin.ref.value) == Some(variant.content.requirements)
  {
    hide Reachable, Compile, ValidContract, DigestOf, ListsParameters;
    ContentsOf(config, s, v);
    var row := s.tables.versions[s.tables.variants[v].contract];
    PlanListsAll(ParentOf(config, row), SnapshotOf(config, row));
  }

  lemma PlanListsAll(c: Contract, catalog: Catalog)
    requires ValidContract(c) && Compile(c, catalog).Ok?
    ensures var plan := Compile(c, catalog).value;
      && ListsInputs(plan.inputMetadata, c) && ListsOutputs(plan.outputMetadata, c)
      && ListsParameters(plan.parameters, c, catalog)
  {
    hide Compile, ValidContract, ListsInputs, ListsParameters, ByKey, DefinedFor;
    PlanDescribes(c, catalog);
    PlanListsInputs(c, catalog);
    PlanListsParameters(c, catalog);
  }

  lemma PlanListsInputs(c: Contract, catalog: Catalog)
    requires ValidContract(c) && Compile(c, catalog).Ok?
    ensures ListsInputs(Compile(c, catalog).value.inputMetadata, c)
  {
    hide Compile, ValidContract, AsksFor, Defined, Increasing;
    forall key {
      PlanListsExactly(c, catalog, key);
    }
    PlanListsExactly(c, catalog, "");
  }

  lemma PlanListsParameters(c: Contract, catalog: Catalog)
    requires ValidContract(c) && Compile(c, catalog).Ok?
    ensures ListsParameters(Compile(c, catalog).value.parameters, c, catalog)
  {
    hide Compile, ValidContract, AsksFor, Defined, Increasing, ByKey, DefinedFor;
    PlanDescribes(c, catalog);
    var plan := Compile(c, catalog).value;
    forall key ensures (exists i :: 0 <= i < |plan.parameters| && plan.parameters[i].key == key)
      <==> Defined(c.constructorArguments, key) || Defined(c.arguments, key)
    {
      PlanListsExactly(c, catalog, key);
      assert key in ParameterKeys(plan) <==> exists i :: 0 <= i < |plan.parameters| && plan.parameters[i].key == key;
    }
  }

  /**
   * Serving a release with the very lists of its stored variant computes, for every input, what
   * the adapter computes without any filter.
   */
  lemma StoredListsServe(config: Config, s: Service, v: VariantId, w: World, content: seq<Byte>,
                         attributes: map<string, Value>, parameters: map<string, Value>)
    requires Reachable(config, s) && v in s.tables.variants && s.tables.variants[v].backend == RunnerBackend
    ensures var variant := s.tables.variants[v];
      && variant.contract in s.tables.versions && Recompiles(config, s.tables.versions[variant.contract])
      && variant.content.RunnerContract?
      && var row := s.tables.versions[variant.contract];
         var plan := Compile(ParentOf(config, row), SnapshotOf(config, row)).value;
         var release := Release(variant.content.inputAttributes, variant.content.outputAttributes);
         Served(w, plan, release, content, attributes, parameters) == Process(w, plan, content, attributes, parameters)
  {
    hide Reachable, Compile, ValidContract, DigestOf, Served, Process;
    ContentsOf(config, s, v);
    var row := s.tables.versions[s.tables.variants[v].contract];
    ServedOwnLists(w, ParentOf(config, row), SnapshotOf(config, row), content, attributes, parameters);
  }

  /**
   * What a compile call files: the contract of the highest version, under the options it was
   * given, with the defaults for those that are missing and, for the names of a native
   * processor, those that are empty.
   */
  lemma CompilesLatest(config: Config, s: Service, step: Step)
    requires step.CompileLatest? && Apply(config, s, step).Some?
    ensures var (s', versions) := (Apply(config, s, step).value, s.tables.versions);
      && s'.tables == s.tables && step.t in s'.threads && s'.threads[step.t].Compiled?
      && s'.threads[step.t].id == step.id && s'.threads[step.t].publish == step.publish
      && step.id in versions && versions[step.id].operator == step.operator
      && (forall other :: other in versions && versions[other].operator == step.operator ==>
            versions[other].number <= versions[step.id].number)
      && Recompiles(config, versions[step.id])
      && s'.threads[step.t].key.backend == step.backend
      && OptionsFrom(config, ParentOf(config, versions[step.id]), step.options, s'.threads[step.t].key.options)
      && (step.backend == RunnerBackend <==> s'.threads[step.t].key.options.RunnerOptions?)
  {
    hide Compile, ValidContract, DigestOf, Max, ContentFor, OptionsFrom;
    var versions := s.tables.versions;
    forall other | other in versions && versions[other].operator == step.operator
      ensures versions[other].number <= versions[step.id].number
    {
      assert versions[other].number in Numbers(versions, step.operator);
    }
    var (parent, catalog) := (ParentOf(config, versions[step.id]), SnapshotOf(config, versions[step.id]));
    PlanDigest(parent, catalog);
    NormalizedFrom(config, parent, Compile(parent, catalog).value, step.backend, step.options);
  }

  /** The option, or this if it is not given or empty. */
  predicate OrDefault(given: map<string, string>, name: string, default: string, used: string) {
    if name in given && given[name] != "" then used == given[name] else used == default
  }

  predicate OptionsFrom(config: Config, parent: Contract, given: map<string, string>, used: Options) {
    match used
    case RunnerOptions(profile) =>
      if "profile" in given then profile == given["profile"] else profile == config.defaultProfile
    case NativeOptions(className, packageName) =>
      && OrDefault(given, "className", config.naming.className(parent.name, DigestOf(parent)), className)
      && OrDefault(given, "packageName", config.naming.packageName(parent.name, DigestOf(parent)), packageName)
  }

  lemma NormalizedFrom(config: Config, parent: Contract, plan: Plan, backend: Backend, given: map<string, string>)
    requires plan.digest == DigestOf(parent)
    ensures var used := Normalized(config.naming, config.defaultProfile, backend, given, parent, plan);
      OptionsFrom(config, parent, given, used)
  {
    hide DigestOf;
  }

  /**
   * Filing: the variant under the compiled key holds the compiled content; a call that was to
   * compile only is through, one that was to publish goes on with that variant.
   */
  lemma FilesCompiled(config: Config, s: Service, step: Step)
    requires Reachable(config, s) && step.FileVariant? && Apply(config, s, step).Some?
    ensures step.t in s.threads && s.threads[step.t].Compiled?
    ensures var (pc, s') := (s.threads[step.t], Apply(config, s, step).value);
      var place := (pc.id, pc.key.backend, pc.key);
      && place in s'.tables.byKey && s'.tables.byKey[place] in s'.tables.variants
      && s'.tables.variants[s'.tables.byKey[place]].content == pc.content
      && s'.tables.variants[s'.tables.byKey[place]].lastError == None
      && (pc.publish ==> s'.threads == s.threads[step.t := Chosen(s'.tables.byKey[place])])
      && (!pc.publish ==> s'.threads == s.threads - {step.t})
  {
    hide Reachable, Upsert, Apply, Inv;
    ReachableInv(config, s);
    FileApplied(config, s, step);
    var pc := s.threads[step.t];
    FiledStands(config, s, (pc.id, pc.key.backend, pc.key));
    UpsertFiles(config, s.tables, pc.id, pc.key.backend, pc.key, pc.content, step.uuid);
  }

  lemma FileApplied(config: Config, s: Service, step: Step)
    requires step.FileVariant? && Apply(config, s, step).Some?
    ensures step.t in s.threads && s.threads[step.t].Compiled?
    ensures var (pc, s') := (s.threads[step.t], Apply(config, s, step).value);
      var filed := Upsert(s.tables, pc.id, pc.key.backend, pc.key, pc.content, step.uuid);
      && filed.Some? && s'.tables == filed.value.1
      && s'.threads == if pc.publish then s.threads[step.t := Chosen(filed.value.0)] else s.threads - {step.t}
  {
    hide Upsert;
  }

  lemma FiledStands(config: Config, s: Service, place: (ContractId, Backend, VariantKey))
    requires Inv(config, s)
    ensures place in s.tables.byKey ==> s.tables.byKey[place] in s.tables.variants
  {
    hide PlansOk, Dense, DigestsOk, RowsOk, PublishedOk, ThreadsOk, VariantOk;
  }

  lemma UpsertFiles(config: Config, t: Tables, id: ContractId, backend: Backend, key: VariantKey,
                    content: BackendContract, uuid: VariantId)
    requires Upsert(t, id, backend, key, content, uuid).Some?
    requires (id, backend, key) in t.byKey ==> t.byKey[(id, backend, key)] in t.variants
    ensures var (v, t') := Upsert(t, id, backend, key, content, uuid).value;
      && (id, backend, key) in t'.byKey && t'.byKey[(id, backend, key)] == v && v in t'.variants
      && t'.variants[v].content == content && t'.variants[v].lastError == None
  {
  }

  /** How a publish call ended, for good: its job is READY with the artifact, or FAILED with the message. */
  predicate Ended(step: Step, job: Job) {
    if step.Succeed? then job.status == Ready && job.artifact == Some(step.artifact) && job.error == None
    else step.Fail? && job.status == Failed && job.error == Some(step.message)
  }

  lemma OutcomesStay(config: Config, s: Service, step: Step, steps: seq<Step>)
    requires Reachable(config, s) && (step.Succeed? || step.Fail?) && Apply(config, s, step).Some?
    requires Exec(config, Apply(config, s, step).value, steps).Some?
    ensures step.t in s.threads && s.threads[step.t].Working?
    ensures var (v, j, s1) := (s.threads[step.t].v, s.threads[step.t].j, Apply(config, s, step).value);
      && j in s1.tables.jobs && s1.tables.jobs[j].variant == v && Ended(step, s1.tables.jobs[j])
      && v in s1.tables.variants
      && (step.Succeed? ==>
            s1.tables.variants[v].status == Published && s1.tables.variants[v].publishedRef == Some(step.artifact))
      && (step.Fail? ==>
            && s1.tables.variants[v].lastError == Some(step.message) && v in s.tables.variants
            && s1.tables.variants[v].status
                 == if s.tables.variants[v].status == Published then Published else VariantFailed)
      && var t := Exec(config, s1, steps).value.tables;
         j in t.jobs && t.jobs[j] == s1.tables.jobs[j]
  {
    hide Reachable, Apply, Exec, Inv;
    ReachableInv(config, s);
    OutcomeNow(config, s, step);
    StepKeeps(config, s, step);
    RunKeeps(config, Apply(config, s, step).value, steps);
  }

  lemma OutcomeNow(config: Config, s: Service, step: Step)
    requires Inv(config, s) && (step.Succeed? || step.Fail?) && Apply(config, s, step).Some?
    ensures step.t in s.threads && s.threads[step.t].Working?
    ensures var (v, j, s1) := (s.threads[step.t].v, s.threads[step.t].j, Apply(config, s, step).value);
      && j in s1.tables.jobs && s1.tables.jobs[j].variant == v && Ended(step, s1.tables.jobs[j])
      && v in s1.tables.variants && v in s.tables.variants
      && (step.Succeed? ==>
            s1.tables.variants[v].status == Published && s1.tables.variants[v].publishedRef == Some(step.artifact))
      && (step.Fail? ==>
            && s1.tables.variants[v].lastError == Some(step.message)
            && s1.tables.variants[v].status
                 == if s.tables.variants[v].status == Published then Published else VariantFailed)
  {
    hide PlansOk, Dense, DigestsOk, RowsOk, VariantsOk, PublishedOk;
    assert ThreadOk(s.tables, s.threads[step.t]);
  }
}
