/** Saving, compiling and publishing as a transition system: any number of callers, each between its store calls. */
module PublishService {
  import opened Prelude
  import opened Contracts
  import opened Compiler
  import opened Backends
  import opened PublishStore

  type ThreadId(==, !new)

  /**
   * `reload` is what comes back of a contract that was stored as JSONB; a source reference
   * always leads to the same snapshot, so what is read from there is a function of the reference.
   */
  datatype Config = Config(
    reload: Contract -> Contract,
    scan: (string, string) -> Catalog,
    requirements: string -> Option<seq<string>>,
    naming: Naming,
    defaultProfile: string)

  /** Where a compile_backend or publish_backend call stands; the first is through after its upsert. */
  datatype Pc =
    | Compiled(id: ContractId, key: VariantKey, content: BackendContract, publish: bool)
    | Chosen(v: VariantId)
    | Created(v: VariantId, j: JobId)
    | Working(v: VariantId, j: JobId)

  datatype Service = Service(tables: Tables, threads: map<ThreadId, Pc>)

  datatype Step =
    | SaveContract(workspace: Label, contract: Contract, operatorUuid: OperatorId, contractUuid: ContractId)
    | CompileLatest(
        t: ThreadId, operator: OperatorId, id: ContractId, backend: Backend, options: map<string, string>,
        publish: bool)
    | FileVariant(t: ThreadId, uuid: VariantId)
    | CreatePublishJob(t: ThreadId, job: JobId)
    | Begin(t: ThreadId)
    | Succeed(t: ThreadId, artifact: Label)
    | Fail(t: ThreadId, message: Label)
    | Vanish(t: ThreadId)

  const INITIAL := Service(EMPTY, map[])

  // ---------------------------------------------------------------- compiling

  /** The snapshot a contract refers to, scanned at its Python path. */
  function CatalogOf(config: Config, c: Contract): Catalog
    requires c.origin.ref.Some?
  {
    config.scan(c.origin.ref.value, c.origin.pythonPath)
  }

  /** create_virtual_contract saves only what compiles against its own snapshot. */
  predicate Savable(config: Config, c: Contract) {
    ValidContract(c) && c.origin.ref.Some? && Compile(c, CatalogOf(config, c)).Ok?
  }

  datatype Loaded = Loaded(parent: Contract, plan: Plan)

  /** _load_current_parent: validate what comes back from the store, then compile it again. */
  function Load(config: Config, row: Version): Option<Loaded> {
    var parent := config.reload(row.contract);
    if !ValidContract(parent) || !Truthy(parent.origin.ref) then None
    else
      var plan := Compile(parent, CatalogOf(config, parent));
      if plan.Err? then None else Some(Loaded(parent, plan.value))
  }

  /** The contract of a backend for a stored row, its options normalized; None when it cannot be compiled. */
  function ContentFor(config: Config, id: ContractId, row: Version, backend: Backend,
                      options: Options): Option<BackendContract> {
    var loaded := Load(config, row);
    if loaded.None? then None
    else
      var requirements := config.requirements(loaded.value.parent.origin.ref.value);
      if backend.NifiNative? && requirements.None? then None
      else
        Some(Child(id, row.number, loaded.value.parent, loaded.value.plan, backend, options,
                   if requirements.Some? then requirements.value else []))
  }

  /** get_latest_contract: the row of the highest version. */
  predicate Latest(t: Tables, operator: OperatorId, id: ContractId) {
    id in t.versions && t.versions[id].operator == operator
      && t.versions[id].number == Max(Numbers(t.versions, operator))
  }

  /** _compile_backend up to the upsert: load the latest contract, compile it, normalize the options. */
  function CompileFor(config: Config, t: Tables, operator: OperatorId, id: ContractId, backend: Backend,
                      options: map<string, string>): Option<(VariantKey, BackendContract)> {
    if !Latest(t, operator, id) then None
    else
      var loaded := Load(config, t.versions[id]);
      if loaded.None? then None
      else
        var normalized :=
          Normalized(config.naming, config.defaultProfile, backend, options, loaded.value.parent, loaded.value.plan);
        var content := ContentFor(config, id, t.versions[id], backend, normalized);
        if content.None? then None
        else Some((KeyFor(loaded.value.plan, backend, normalized), content.value))
  }

  // ---------------------------------------------------------------- steps

  /** None when the step cannot be taken; fresh identifiers are not yet in use. */
  function Apply(config: Config, s: Service, step: Step): Option<Service> {
    match step
    case SaveContract(workspace, contract, operatorUuid, contractUuid) =>
      if operatorUuid in s.tables.operators || contractUuid in s.tables.versions || !Savable(config, contract) then None
      else
        var saved := Save(s.tables, workspace, contract, operatorUuid, contractUuid);
        if saved.None? then None else Some(s.(tables := saved.value.1))
    case CompileLatest(t, operator, id, backend, options, publish) =>
      var r := CompileFor(config, s.tables, operator, id, backend, options);
      if r.None? || t in s.threads then None
      else Some(s.(threads := s.threads[t := Compiled(id, r.value.0, r.value.1, publish)]))
    case FileVariant(t, uuid) =>
      if t !in s.threads || !s.threads[t].Compiled? || uuid in s.tables.variants then None
      else
        var pc := s.threads[t];
        var r := Upsert(s.tables, pc.id, pc.key.backend, pc.key, pc.content, uuid);
        if r.None? then None
        else Some(Service(r.value.1, if pc.publish then s.threads[t := Chosen(r.value.0)] else s.threads - {t}))
    case CreatePublishJob(t, job) =>
      if t !in s.threads || !s.threads[t].Chosen? || job in s.tables.jobs then None
      else
        var r := CreateJob(s.tables, s.threads[t].v, job);
        if r.None? then None else Some(Service(r.value, s.threads[t := Created(s.threads[t].v, job)]))
    case Begin(t) =>
      if t !in s.threads || !s.threads[t].Created? then None
      else Some(Service(MarkRunning(s.tables, s.threads[t].j), s.threads[t := Working(s.threads[t].v, s.threads[t].j)]))
    case Succeed(t, artifact) =>
      if t !in s.threads || !s.threads[t].Working? then None
      else Some(Service(MarkReady(s.tables, s.threads[t].j, s.threads[t].v, artifact), s.threads - {t}))
    case Fail(t, message) =>
      if t !in s.threads || !s.threads[t].Working? then None
      else Some(Service(MarkFailed(s.tables, s.threads[t].j, s.threads[t].v, message), s.threads - {t}))
    case Vanish(t) =>
      if t !in s.threads then None else Some(s.(threads := s.threads - {t}))
  }

  function Exec(config: Config, s: Service, steps: seq<Step>): Option<Service>
    decreases |steps|
  {
    if steps == [] then Some(s)
    else
      var next := Apply(config, s, steps[0]);
      if next.None? then None else Exec(config, next.value, steps[1..])
  }
}
