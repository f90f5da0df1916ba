/**
 * Versions are 1..n, saving again adds nothing, what is published is what the compiler makes of
 * the stored contract, and PUBLISHED means a READY job, for good.
 */
module PublishTheorems {
  import opened Prelude
  import opened Contracts
  import opened Compiler
  import opened CompilerTheorems
  import opened Backends
  import opened PublishStore
  import opened PublishService

  // ---------------------------------------------------------------- invariants

  predicate Preceded(versions: map<ContractId, Version>, operator: OperatorId, k: nat) {
    exists c :: c in versions && versions[c].operator == operator && versions[c].number == k
  }

  predicate SameNumber(a: Version, b: Version) {
    a.operator == b.operator && a.number == b.number
  }

  /** No gap below any version. */
  ghost predicate Dense(versions: map<ContractId, Version>) {
    && (forall c :: c in versions ==> versions[c].number >= 1)
    && (forall c, k: nat :: c in versions && 1 <= k < versions[c].number ==>
          Preceded(versions, versions[c].operator, k))
    && (forall c, d :: c in versions && d in versions && SameNumber(versions[c], versions[d]) ==> c == d)
  }

  ghost predicate DigestsOk(versions: map<ContractId, Version>, byDigest: map<(OperatorId, Digest), ContractId>) {
    && (forall c :: c in versions ==>
          var place := (versions[c].operator, versions[c].digest);
          place in byDigest && byDigest[place] == c)
    && (forall place :: place in byDigest ==>
          && byDigest[place] in versions
          && versions[byDigest[place]].operator == place.0 && versions[byDigest[place]].digest == place.1)
  }

  /** A row holds a contract that compiled when it was saved, under that contract's digest. */
  predicate RowOk(config: Config, row: Version) {
    Savable(config, row.contract) && row.digest == DigestOf(row.contract)
      && row.contract.origin.ref == Some(row.sourceRef)
  }

  ghost predicate RowsOk(config: Config, versions: map<ContractId, Version>) {
    forall c :: c in versions ==> RowOk(config, versions[c])
  }

  /** Key and content are what the compilers make of the stored contract and of the options in the key. */
  predicate DerivedFrom(config: Config, id: ContractId, row: Version, key: VariantKey, content: BackendContract) {
    && Load(config, row).Some? && (key.backend.RunnerBackend? <==> key.options.RunnerOptions?)
    && key == KeyFor(Load(config, row).value.plan, key.backend, key.options)
    && ContentFor(config, id, row, key.backend, key.options) == Some(content)
  }

  predicate Derived(config: Config, id: ContractId, row: Version, variant: Variant) {
    variant.key.backend == variant.backend && DerivedFrom(config, id, row, variant.key, variant.content)
  }

  predicate VariantOk(config: Config, t: Tables, v: VariantId, row: Variant) {
    && row.contract in t.versions && Derived(config, row.contract, t.versions[row.contract], row)
    && (row.contract, row.backend, row.key) in t.byKey && t.byKey[(row.contract, row.backend, row.key)] == v
    && (row.publishedRef.Some? <==> row.status.Published?)
  }

  ghost predicate VariantsOk(config: Config, t: Tables) {
    && (forall v :: v in t.variants ==> VariantOk(config, t, v, t.variants[v]))
    && (forall place :: place in t.byKey ==>
          var v := t.byKey[place];
          v in t.variants && t.variants[v].contract == place.0 && t.variants[v].backend == place.1
            && t.variants[v].key == place.2)
  }

  predicate DoneFor(jobs: map<JobId, Job>, v: VariantId, j: JobId) {
    j in jobs && jobs[j].variant == v && jobs[j].status.Ready?
  }

  /** PUBLISHED says that some job is READY, and READY jobs are PUBLISHED. */
  ghost predicate PublishedOk(variants: map<VariantId, Variant>, jobs: map<JobId, Job>) {
    && (forall j :: j in jobs && jobs[j].status.Ready? ==>
          jobs[j].variant in variants && variants[jobs[j].variant].status.Published?)
    && (forall v :: v in variants && variants[v].status.Published? ==>
          exists j :: DoneFor(jobs, v, j) && jobs[j].artifact == variants[v].publishedRef)
  }

  predicate HasJob(pc: Pc) {
    pc.Created? || pc.Working?
  }

  predicate ThreadOk(t: Tables, pc: Pc) {
    && (!pc.Compiled? ==> pc.v in t.variants)
    && (HasJob(pc) ==>
          && pc.j in t.jobs && t.jobs[pc.j].variant == pc.v
          && t.jobs[pc.j].status == if pc.Created? then Pending else Running)
  }

  predicate SameJob(pc: Pc, pc': Pc) {
    HasJob(pc) && HasJob(pc') && pc.j == pc'.j
  }

  ghost predicate ThreadsOk(t: Tables, threads: map<ThreadId, Pc>) {
    && (forall i :: i in threads ==> ThreadOk(t, threads[i]))
    && (forall i, k :: i in threads && k in threads && SameJob(threads[i], threads[k]) ==> i == k)
  }

  /** What a call has compiled and not yet filed is still what its stored contract compiles to. */
  predicate PlanOk(config: Config, versions: map<ContractId, Version>, pc: Pc) {
    pc.Compiled? ==> pc.id in versions && DerivedFrom(config, pc.id, versions[pc.id], pc.key, pc.content)
  }

  ghost predicate PlansOk(config: Config, versions: map<ContractId, Version>, threads: map<ThreadId, Pc>) {
    forall i :: i in threads ==> PlanOk(config, versions, threads[i])
  }

  ghost predicate Inv(config: Config, s: Service) {
    && PlansOk(config, s.tables.versions, s.threads)
    && Dense(s.tables.versions) && DigestsOk(s.tables.versions, s.tables.byDigest) && RowsOk(config, s.tables.versions)
    && VariantsOk(config, s.tables) && PublishedOk(s.tables.variants, s.tables.jobs) && ThreadsOk(s.tables, s.threads)
  }

  // ---------------------------------------------------------------- how the tables may change

  predicate StaysPublished(row: Variant, row': Variant) {
    && row'.contract == row.contract && row'.backend == row.backend && row'.key == row.key
    && row'.content == row.content
    && (row.status.Published? ==> row'.status.Published?)
  }

  ghost predicate VersionsGrow(t: Tables, t': Tables) {
    && (forall c :: c in t.versions ==> c in t'.versions && t'.versions[c] == t.versions[c])
    && (forall place :: place in t.byDigest ==> place in t'.byDigest && t'.byDigest[place] == t.byDigest[place])
    && (forall place :: place in t.byName ==> place in t'.byName && t'.byName[place] == t.byName[place])
  }

  ghost predicate VariantsGrow(variants: map<VariantId, Variant>, variants': map<VariantId, Variant>) {
    forall v :: v in variants ==> v in variants' && StaysPublished(variants[v], variants'[v])
  }

  ghost predicate JobsGrow(jobs: map<JobId, Job>, jobs': map<JobId, Job>) {
    forall j :: j in jobs && (jobs[j].status.Ready? || jobs[j].status.Failed?) ==> j in jobs' && jobs'[j] == jobs[j]
  }

  /** Versions never change, variants keep what they are, PUBLISHED stays, READY and FAILED jobs are over. */
  ghost predicate Grows(t: Tables, t': Tables) {
    VersionsGrow(t, t') && VariantsGrow(t.variants, t'.variants) && JobsGrow(t.jobs, t'.jobs)
  }

  lemma GrowsOn(t: Tables, t': Tables, t'': Tables)
    requires Grows(t, t') && Grows(t', t'')
    ensures Grows(t, t'')
  {
  }

  // ---------------------------------------------------------------- saving

  lemma UpsertedGrows(t: Tables, row: Operator, uuid: OperatorId)
    ensures var t' := Upserted(t, row, uuid);
      && t' == t.(operators := t'.operators, byName := t'.byName)
      && forall place :: place in t.byName ==> place in t'.byName && t'.byName[place] == t.byName[place]
  {
  }

  lemma SaveGrows(t: Tables, workspace: Label, c: Contract, operatorUuid: OperatorId, contractUuid: ContractId)
    requires contractUuid !in t.versions && Save(t, workspace, c, operatorUuid, contractUuid).Some?
    ensures var t' := Save(t, workspace, c, operatorUuid, contractUuid).value.1;
      VersionsGrow(t, t') && t'.variants == t.variants && t'.byKey == t.byKey && t'.jobs == t.jobs
  {
    hide DigestOf, Max, Numbers, Upserted, OperatorFor;
    UpsertedGrows(t, OperatorRow(workspace, c), operatorUuid);
  }

  lemma SaveAdds(t: Tables, workspace: Label, c: Contract, operatorUuid: OperatorId,
                 contractUuid: ContractId) returns (row: Version)
    requires Save(t, workspace, c, operatorUuid, contractUuid).Some?
    ensures var t' := Save(t, workspace, c, operatorUuid, contractUuid).value.1;
      if t'.versions == t.versions && t'.byDigest == t.byDigest then true
      else
        && c.origin.ref.Some? && row.contract == c && row.digest == DigestOf(c) && row.sourceRef == c.origin.ref.value
        && row.number == Max(Numbers(t.versions, row.operator)) + 1 && (row.operator, row.digest) !in t.byDigest
        && t'.versions == t.versions[contractUuid := row]
        && t'.byDigest == t.byDigest[(row.operator, row.digest) := contractUuid]
  {
    hide DigestOf, Max, Numbers;
    var operator := OperatorFor(t, OperatorRow(workspace, c), operatorUuid);
    var ref := if c.origin.ref.Some? then c.origin.ref.value else "";
    row := Version(operator, Max(Numbers(t.versions, operator)) + 1, DigestOf(c), ref, c);
  }

  lemma SaveKeepsVersions(config: Config, t: Tables, workspace: Label, c: Contract, operatorUuid: OperatorId,
                          contractUuid: ContractId)
    requires Dense(t.versions) && DigestsOk(t.versions, t.byDigest) && RowsOk(config, t.versions)
    requires contractUuid !in t.versions
    requires Savable(config, c) && Save(t, workspace, c, operatorUuid, contractUuid).Some?
    ensures var t' := Save(t, workspace, c, operatorUuid, contractUuid).value.1;
      && Dense(t'.versions) && DigestsOk(t'.versions, t'.byDigest) && RowsOk(config, t'.versions) && VersionsGrow(t, t')
      && t'.variants == t.variants && t'.byKey == t.byKey && t'.jobs == t.jobs
  {
    hide Dense, DigestsOk, RowsOk, Numbers, DigestOf, Savable, Max, Save, VersionsGrow;
    SavableIsValid(config, c);
    SaveGrows(t, workspace, c, operatorUuid, contractUuid);
    var row := SaveAdds(t, workspace, c, operatorUuid, contractUuid);
    var t' := Save(t, workspace, c, operatorUuid, contractUuid).value.1;
    if t'.versions != t.versions || t'.byDigest != t.byDigest {
      NextVersion(t.versions, row, contractUuid);
      NewDigest(t.versions, t.byDigest, row, contractUuid);
      NewRow(config, t.versions, row, contractUuid);
    }
  }

  lemma NewRow(config: Config, versions: map<ContractId, Version>, version: Version, c: ContractId)
    requires RowsOk(config, versions) && RowOk(config, version)
    ensures RowsOk(config, versions[c := version])
  {
    hide RowOk;
  }

  lemma NewDigest(versions: map<ContractId, Version>, byDigest: map<(OperatorId, Digest), ContractId>, version: Version,
                  c: ContractId)
    requires DigestsOk(versions, byDigest) && c !in versions && (version.operator, version.digest) !in byDigest
    ensures DigestsOk(versions[c := version], byDigest[(version.operator, version.digest) := c])
  {
  }

  lemma NextVersion(versions: map<ContractId, Version>, version: Version, c: ContractId)
    requires Dense(versions) && c !in versions && version.number == Max(Numbers(versions, version.operator)) + 1
    ensures Dense(versions[c := version])
  {
    var versions' := versions[c := version];
    var numbers := Numbers(versions, version.operator);
    forall d | d in versions && versions[d].operator == version.operator ensures versions[d].number < version.number {
      assert versions[d].number in numbers;
    }
    forall d, k: nat | d in versions' && 1 <= k < versions'[d].number
      ensures Preceded(versions', versions'[d].operator, k)
    {
      if d != c {
        StillPreceded(versions, c, version, versions[d].operator, k);
      } else {
        var top := Max(numbers);
        var e :| e in versions && versions[e].operator == version.operator && versions[e].number == top;
        if k == top { assert versions'[e] == versions[e]; }
        else { StillPreceded(versions, c, version, version.operator, k); }
      }
    }
  }

  lemma StillPreceded(versions: map<ContractId, Version>, c: ContractId, version: Version, operator: OperatorId, k: nat)
    requires c !in versions && Preceded(versions, operator, k)
    ensures Preceded(versions[c := version], operator, k)
  {
    var d :| d in versions && versions[d].operator == operator && versions[d].number == k;
    assert versions[c := version][d] == versions[d];
  }

  lemma VariantsStand(config: Config, t: Tables, t': Tables)
    requires VariantsOk(config, t) && t'.variants == t.variants && t'.byKey == t.byKey && VersionsGrow(t, t')
    ensures VariantsOk(config, t') && VariantsGrow(t.variants, t'.variants)
  {
    hide Derived, DerivedFrom;
    forall v | v in t'.variants
      ensures VariantOk(config, t', v, t'.variants[v]) { assert VariantOk(config, t, v, t.variants[v]); }
  }

  lemma PlansStand(config: Config, t: Tables, t': Tables, threads: map<ThreadId, Pc>)
    requires PlansOk(config, t.versions, threads) && VersionsGrow(t, t')
    ensures PlansOk(config, t'.versions, threads)
  {
    hide DerivedFrom;
    forall i | i in threads ensures PlanOk(config, t'.versions, threads[i]) {
      assert PlanOk(config, t.versions, threads[i]);
    }
  }

  lemma SaveKeeps(config: Config, s: Service, step: Step)
    requires Inv(config, s) && step.SaveContract? && Apply(config, s, step).Some?
    ensures var s' := Apply(config, s, step).value; Inv(config, s') && Grows(s.tables, s'.tables)
  {
    hide Dense, DigestsOk, RowsOk, PublishedOk, VariantsOk, VariantsGrow, VersionsGrow;
    hide ThreadsOk, PlansOk, Save, Savable;
    SaveKeepsVersions(config, s.tables, step.workspace, step.contract, step.operatorUuid, step.contractUuid);
    var s' := Apply(config, s, step).value;
    PlansStand(config, s.tables, s'.tables, s.threads);
    VariantsStand(config, s.tables, s'.tables);
    ThreadsStand(s.tables, s'.tables, s.threads);
  }

  // ---------------------------------------------------------------- compiling

  lemma VariantStays(config: Config, t: Tables, t': Tables, u: VariantId, row: Variant,
                     place: (ContractId, Backend, VariantKey), v: VariantId)
    requires VariantOk(config, t, u, row) && place !in t.byKey
    requires t'.versions == t.versions && t'.byKey == t.byKey[place := v]
    ensures VariantOk(config, t', u, row)
  {
    hide Derived, DerivedFrom;
  }

  lemma NewVariant(config: Config, t: Tables, t': Tables, v: VariantId, row: Variant)
    requires VariantsOk(config, t) && v !in t.variants && (row.contract, row.backend, row.key) !in t.byKey
    requires t' == t.(variants := t.variants[v := row], byKey := t.byKey[(row.contract, row.backend, row.key) := v])
    requires VariantOk(config, t', v, row)
    ensures VariantsOk(config, t') && VariantsGrow(t.variants, t'.variants)
  {
    hide VariantOk;
    forall u | u in t'.variants ensures VariantOk(config, t', u, t'.variants[u]) {
      if u != v { VariantStays(config, t, t', u, t.variants[u], (row.contract, row.backend, row.key), v); }
    }
  }

  /** A row that keeps its identity and content, and PUBLISHED if it was. */
  lemma VariantTurns(config: Config, t: Tables, t': Tables, v: VariantId)
    requires VariantsOk(config, t) && v in t.variants && v in t'.variants
    requires t'.variants == t.variants[v := t'.variants[v]]
    requires t'.byKey == t.byKey && t'.versions == t.versions && StaysPublished(t.variants[v], t'.variants[v])
    requires t'.variants[v].publishedRef.Some? <==> t'.variants[v].status.Published?
    ensures VariantsOk(config, t') && VariantsGrow(t.variants, t'.variants)
  {
    hide Derived, DerivedFrom;
    DerivedStays(config, t, v, t'.variants[v]);
    forall u | u in t'.variants
      ensures VariantOk(config, t', u, t'.variants[u]) { assert VariantOk(config, t, u, t.variants[u]); }
  }

  lemma DerivedStays(config: Config, t: Tables, v: VariantId, row: Variant)
    requires VariantsOk(config, t) && v in t.variants && StaysPublished(t.variants[v], row)
    ensures row.contract in t.versions && Derived(config, row.contract, t.versions[row.contract], row)
  {
    hide Load, ContentFor, KeyFor;
    assert VariantOk(config, t, v, t.variants[v]);
  }

  /** PUBLISHED stands as long as status and reference do. */
  lemma PublishedStands(variants: map<VariantId, Variant>, variants': map<VariantId, Variant>, jobs: map<JobId, Job>)
    requires PublishedOk(variants, jobs) && (forall v :: v in variants ==> v in variants')
    requires forall v :: v in variants' && v in variants ==>
      (variants'[v].status.Published? <==> variants[v].status.Published?)
        && variants'[v].publishedRef == variants[v].publishedRef
    requires forall v :: v in variants' && v !in variants ==> !variants'[v].status.Published?
    ensures PublishedOk(variants', jobs)
  {
  }

  /** The variant filed under a key already holds what compiling for that key gives. */
  lemma Indexed(config: Config, t: Tables, id: ContractId, backend: Backend, key: VariantKey)
    requires VariantsOk(config, t) && (id, backend, key) in t.byKey
    ensures var v := t.byKey[(id, backend, key)];
      && v in t.variants && t.variants[v].contract == id && t.variants[v].backend == backend && t.variants[v].key == key
      && id in t.versions && ContentFor(config, id, t.versions[id], backend, key.options) == Some(t.variants[v].content)
      && (t.variants[v].publishedRef.Some? <==> t.variants[v].status.Published?)
  {
    hide Load, ContentFor, KeyFor;
    assert VariantOk(config, t, t.byKey[(id, backend, key)], t.variants[t.byKey[(id, backend, key)]]);
  }

  /** What compiling gives is derived from the stored row. */
  lemma CompiledIsDerived(config: Config, t: Tables, operator: OperatorId, id: ContractId, backend: Backend,
                          options: map<string, string>)
    requires CompileFor(config, t, operator, id, backend, options).Some?
    ensures var (key, content) := CompileFor(config, t, operator, id, backend, options).value;
      id in t.versions && key.backend == backend && DerivedFrom(config, id, t.versions[id], key, content)
  {
    hide Load, ContentFor, Latest;
    assert id in t.versions by { LatestIsStored(t, operator, id); }
  }

  lemma LatestIsStored(t: Tables, operator: OperatorId, id: ContractId)
    requires Latest(t, operator, id)
    ensures id in t.versions
  {
  }

  lemma UpsertKeepsVariants(config: Config, t: Tables, id: ContractId, backend: Backend, key: VariantKey,
                            content: BackendContract, uuid: VariantId)
    requires VariantsOk(config, t) && id in t.versions && uuid !in t.variants
    requires key.backend == backend && DerivedFrom(config, id, t.versions[id], key, content)
    ensures var (v, t') := Upsert(t, id, backend, key, content, uuid).value;
      && VariantsOk(config, t') && VariantsGrow(t.variants, t'.variants) && v in t'.variants
  {
    hide VariantsGrow, VariantsOk, Load, ContentFor, KeyFor;
    var (v, t') := Upsert(t, id, backend, key, content, uuid).value;
    if (id, backend, key) in t.byKey {
      Indexed(config, t, id, backend, key);
      VariantTurns(config, t, t', v);
    } else {
      NewVariant(config, t, t', v, t'.variants[v]);
    }
  }

  lemma UpsertKeepsPublished(t: Tables, id: ContractId, backend: Backend, key: VariantKey, content: BackendContract,
                             uuid: VariantId)
    requires PublishedOk(t.variants, t.jobs) && id in t.versions && uuid !in t.variants
    ensures var t' := Upsert(t, id, backend, key, content, uuid).value.1;
      && PublishedOk(t'.variants, t'.jobs)
      && t'.versions == t.versions && t'.byDigest == t.byDigest && t'.jobs == t.jobs && t'.byName == t.byName
  {
    hide PublishedOk;
    var t' := Upsert(t, id, backend, key, content, uuid).value.1;
    assert t'.versions == t.versions && t'.byDigest == t.byDigest && t'.jobs == t.jobs && t'.byName == t.byName;
    PublishedStands(t.variants, t'.variants, t.jobs);
  }

  /** Filing what was compiled leaves an existing backend contract as it is, whatever the variant's status. */
  lemma FilingKeeps(config: Config, t: Tables, pc: Pc, uuid: VariantId)
    requires VariantsOk(config, t) && PublishedOk(t.variants, t.jobs)
    requires pc.Compiled? && PlanOk(config, t.versions, pc) && uuid !in t.variants
    ensures var (v, t') := Upsert(t, pc.id, pc.key.backend, pc.key, pc.content, uuid).value;
      && VariantsOk(config, t') && PublishedOk(t'.variants, t'.jobs) && Grows(t, t') && v in t'.variants
      && t'.versions == t.versions && t'.byDigest == t.byDigest && t'.jobs == t.jobs
  {
    hide PublishedOk, VariantsGrow, VariantsOk, Upsert, DerivedFrom;
    UpsertKeepsVariants(config, t, pc.id, pc.key.backend, pc.key, pc.content, uuid);
    UpsertKeepsPublished(t, pc.id, pc.key.backend, pc.key, pc.content, uuid);
  }

  lemma ThreadsStand(t: Tables, t': Tables, threads: map<ThreadId, Pc>)
    requires ThreadsOk(t, threads) && t'.jobs == t.jobs && forall v :: v in t.variants ==> v in t'.variants
    ensures ThreadsOk(t', threads)
  {
  }

  /** A call compiles; the tables stay as they are. */
  lemma CompilingKeeps(config: Config, s: Service, step: Step)
    requires Inv(config, s) && step.CompileLatest? && Apply(config, s, step).Some?
    ensures var s' := Apply(config, s, step).value; Inv(config, s') && Grows(s.tables, s'.tables)
  {
    hide Dense, DigestsOk, RowsOk, PublishedOk, VariantsOk, CompileFor, DerivedFrom, Grows;
    CompiledIsDerived(config, s.tables, step.operator, step.id, step.backend, step.options);
    GrowsItself(s.tables);
  }

  /** One call moves on past its upsert, or is through. */
  lemma PlanFiled(config: Config, versions: map<ContractId, Version>, threads: map<ThreadId, Pc>, t: ThreadId, pc: Pc)
    requires PlansOk(config, versions, threads) && !pc.Compiled?
    ensures PlansOk(config, versions, threads[t := pc]) && PlansOk(config, versions, threads - {t})
  {
    hide DerivedFrom;
  }

  lemma FiledThreads(t: Tables, threads: map<ThreadId, Pc>, i: ThreadId, v: VariantId)
    requires ThreadsOk(t, threads) && i in threads && v in t.variants
    ensures ThreadsOk(t, threads[i := Chosen(v)]) && ThreadsOk(t, threads - {i})
  {
    forall k | k in threads ensures ThreadOk(t, threads[k]) {
    }
  }

  lemma FileKeeps(config: Config, s: Service, step: Step)
    requires Inv(config, s) && step.FileVariant? && Apply(config, s, step).Some?
    ensures var s' := Apply(config, s, step).value; Inv(config, s') && Grows(s.tables, s'.tables)
  {
    hide Dense, DigestsOk, RowsOk, PublishedOk, VariantsOk, Upsert, DerivedFrom, PlanOk, ThreadsOk, Grows;
    var (pc, s') := (s.threads[step.t], Apply(config, s, step).value);
    assert PlanOk(config, s.tables.versions, pc);
    hide PlansOk;
    FilingKeeps(config, s.tables, pc, step.uuid);
    var v := Upsert(s.tables, pc.id, pc.key.backend, pc.key, pc.content, step.uuid).value.0;
    GrowingVariants(s.tables, s'.tables);
    ThreadsStand(s.tables, s'.tables, s.threads);
    FiledThreads(s'.tables, s.threads, step.t, v);
    PlanFiled(config, s.tables.versions, s.threads, step.t, Chosen(v));
  }

  lemma GrowingVariants(t: Tables, t': Tables)
    requires Grows(t, t')
    ensures forall v :: v in t.variants ==> v in t'.variants
  {
  }

  // ---------------------------------------------------------------- publishing

  /** One job moves on, and it is not a READY or FAILED one; no variant changes. */
  lemma JobMoves(variants: map<VariantId, Variant>, jobs: map<JobId, Job>, jobs': map<JobId, Job>, j: JobId)
    requires PublishedOk(variants, jobs) && j in jobs' && jobs' == jobs[j := jobs'[j]] && !jobs'[j].status.Ready?
    requires j in jobs ==> jobs[j].status.Pending? || jobs[j].status.Running?
    ensures PublishedOk(variants, jobs') && JobsGrow(jobs, jobs')
  {
    forall v | v in variants && variants[v].status.Published?
      ensures exists i :: DoneFor(jobs', v, i) && jobs'[i].artifact == variants[v].publishedRef
    {
      var i :| DoneFor(jobs, v, i) && jobs[i].artifact == variants[v].publishedRef;
      assert DoneFor(jobs', v, i);
    }
  }

  lemma JobKeeps(config: Config, s: Service, step: Step)
    requires Inv(config, s) && (step.CreatePublishJob? || step.Begin?) && Apply(config, s, step).Some?
    ensures var s' := Apply(config, s, step).value; Inv(config, s') && Grows(s.tables, s'.tables)
  {
    hide Dense, DigestsOk, RowsOk, PublishedOk, VariantsOk, VariantsGrow, JobsGrow, PlanOk;
    var s' := Apply(config, s, step).value;
    assert ThreadOk(s.tables, s.threads[step.t]);
    JobMoves(s.tables.variants, s.tables.jobs, s'.tables.jobs, if step.Begin? then s.threads[step.t].j else step.job);
    PlanFiled(config, s.tables.versions, s.threads, step.t, s'.threads[step.t]);
    VariantsStand(config, s.tables, s'.tables);
  }

  /** The thread's own job ends; every other thread stands where it stood. */
  lemma ThreadLeaves(t: Tables, t': Tables, threads: map<ThreadId, Pc>, i: ThreadId)
    requires ThreadsOk(t, threads) && i in threads && HasJob(threads[i])
    requires forall j :: j in t.jobs && j != threads[i].j ==> j in t'.jobs && t'.jobs[j] == t.jobs[j]
    requires forall v :: v in t.variants ==> v in t'.variants
    ensures ThreadsOk(t', threads - {i})
  {
    forall k | k in threads - {i} ensures ThreadOk(t', threads[k]) { assert ThreadOk(t, threads[k]); }
  }

  lemma ReadyPublishes(variants: map<VariantId, Variant>, jobs: map<JobId, Job>, v: VariantId, j: JobId, row: Variant,
                       job: Job)
    requires PublishedOk(variants, jobs) && v in variants && j in jobs && jobs[j].status.Running?
    requires row.status.Published? && job.variant == v && job.status.Ready? && job.artifact == row.publishedRef
    ensures PublishedOk(variants[v := row], jobs[j := job]) && JobsGrow(jobs, jobs[j := job])
  {
    var (variants', jobs') := (variants[v := row], jobs[j := job]);
    assert DoneFor(jobs', v, j);
    forall u | u in variants' && u != v && variants'[u].status.Published?
      ensures exists i :: DoneFor(jobs', u, i) && jobs'[i].artifact == variants'[u].publishedRef
    {
      var i :| DoneFor(jobs, u, i) && jobs[i].artifact == variants[u].publishedRef;
      assert DoneFor(jobs', u, i);
    }
  }

  lemma SucceedKeeps(config: Config, s: Service, step: Step)
    requires Inv(config, s) && step.Succeed? && Apply(config, s, step).Some?
    ensures var s' := Apply(config, s, step).value; Inv(config, s') && Grows(s.tables, s'.tables)
  {
    hide Dense, DigestsOk, RowsOk, PublishedOk, VariantsOk, VariantsGrow, JobsGrow, PlanOk;
    var s' := Apply(config, s, step).value;
    var pc := s.threads[step.t];
    assert ThreadOk(s.tables, pc);
    hide ThreadsOk;
    ReadyPublishes(s.tables.variants, s.tables.jobs, pc.v, pc.j, s'.tables.variants[pc.v], s'.tables.jobs[pc.j]);
    VariantTurns(config, s.tables, s'.tables, pc.v);
    ThreadLeaves(s.tables, s'.tables, s.threads, step.t);
  }

  lemma FailKeeps(config: Config, s: Service, step: Step)
    requires Inv(config, s) && step.Fail? && Apply(config, s, step).Some?
    ensures var s' := Apply(config, s, step).value; Inv(config, s') && Grows(s.tables, s'.tables)
  {
    hide Dense, DigestsOk, RowsOk, PublishedOk, VariantsGrow, JobsGrow, Derived, PlanOk;
    var s' := Apply(config, s, step).value;
    var pc := s.threads[step.t];
    assert ThreadOk(s.tables, pc) && VariantOk(config, s.tables, pc.v, s.tables.variants[pc.v]);
    hide ThreadsOk, VariantsOk;
    JobMoves(s.tables.variants, s.tables.jobs, s'.tables.jobs, pc.j);
    PublishedStands(s.tables.variants, s'.tables.variants, s'.tables.jobs);
    VariantTurns(config, s.tables, s'.tables, pc.v);
    ThreadLeaves(s.tables, s'.tables, s.threads, step.t);
  }

  lemma VanishKeeps(config: Config, s: Service, step: Step)
    requires Inv(config, s) && step.Vanish? && Apply(config, s, step).Some?
    ensures var s' := Apply(config, s, step).value; Inv(config, s') && Grows(s.tables, s'.tables)
  {
    hide Dense, DigestsOk, RowsOk, PublishedOk, VariantsOk, PlanOk;
    VariantsStand(config, s.tables, s.tables);
  }

  // ---------------------------------------------------------------- every run

  lemma StepKeeps(config: Config, s: Service, step: Step)
    requires Inv(config, s) && Apply(config, s, step).Some?
    ensures var s' := Apply(config, s, step).value; Inv(config, s') && Grows(s.tables, s'.tables)
  {
    hide Inv, Apply, Grows;
    if step.SaveContract? { SaveKeeps(config, s, step); }
    else if step.CompileLatest? { CompilingKeeps(config, s, step); }
    else if step.FileVariant? { FileKeeps(config, s, step); }
    else if step.CreatePublishJob? || step.Begin? { JobKeeps(config, s, step); }
    else if step.Succeed? { SucceedKeeps(config, s, step); }
    else if step.Fail? { FailKeeps(config, s, step); }
    else { VanishKeeps(config, s, step); }
  }

  lemma {:induction false} RunKeeps(config: Config, s: Service, steps: seq<Step>)
    requires Inv(config, s) && Exec(config, s, steps).Some?
    ensures var s' := Exec(config, s, steps).value; Inv(config, s') && Grows(s.tables, s'.tables)
    decreases |steps|
  {
    hide Inv, Apply, Grows;
    if steps == [] {
      GrowsItself(s.tables);
    } else {
      StepKeeps(config, s, steps[0]);
      var s1 := Apply(config, s, steps[0]).value;
      RunKeeps(config, s1, steps[1..]);
      GrowsOn(s.tables, s1.tables, Exec(config, s, steps).value.tables);
    }
  }

  lemma GrowsItself(t: Tables)
    ensures Grows(t, t)
  {
  }

  ghost predicate Reachable(config: Config, s: Service) {
    exists steps :: Exec(config, INITIAL, steps) == Some(s)
  }

  lemma ReachableInv(config: Config, s: Service)
    requires Reachable(config, s)
    ensures Inv(config, s)
  {
    var steps :| Exec(config, INITIAL, steps) == Some(s);
    RunKeeps(config, INITIAL, steps);
  }

  // ---------------------------------------------------------------- theorems

  predicate Rivals(a: Version, b: Version) {
    a.operator == b.operator && (a.number == b.number || a.digest == b.digest)
  }

  /** The versions of an operator are exactly 1..n, one row each, and no two rows share a digest. */
  lemma VersionsAreDense(config: Config, s: Service, operator: OperatorId)
    requires Reachable(config, s)
    ensures var n := Max(Numbers(s.tables.versions, operator));
      forall k: nat :: k in Numbers(s.tables.versions, operator) <==> 1 <= k <= n
    ensures var versions := s.tables.versions;
      forall c, d :: c in versions && d in versions && Rivals(versions[c], versions[d]) ==> c == d
  {
    hide Reachable, PlansOk, Dense, DigestsOk, RowsOk, VariantsOk, PublishedOk, ThreadsOk, Numbers;
    ReachableInv(config, s);
    DenseNumbers(s.tables.versions, operator);
    OneRow(s.tables.versions, s.tables.byDigest);
  }

  lemma DenseNumbers(versions: map<ContractId, Version>, operator: OperatorId)
    requires Dense(versions)
    ensures var n := Max(Numbers(versions, operator));
      forall k: nat :: k in Numbers(versions, operator) <==> 1 <= k <= n
  {
    var numbers := Numbers(versions, operator);
    var n := Max(numbers);
    forall k: nat | 1 <= k <= n ensures k in numbers {
      assert numbers != {};
      var c :| c in versions && versions[c].operator == operator && versions[c].number == n;
      if k < n { assert Preceded(versions, operator, k); }
    }
  }

  lemma OneRow(versions: map<ContractId, Version>, byDigest: map<(OperatorId, Digest), ContractId>)
    requires Dense(versions) && DigestsOk(versions, byDigest)
    ensures forall c, d :: c in versions && d in versions && Rivals(versions[c], versions[d]) ==> c == d
  {
  }

  /**
   * A contract saved once is found again by every later save of it, in whatever order its
   * bindings come, under the same operator, version and id, and nothing is added.
   */
  lemma ResavingAddsNothing(config: Config, s: Service, first: Step, steps: seq<Step>, again: Step)
    requires Inv(config, s) && first.SaveContract? && Apply(config, s, first).Some?
    requires Exec(config, Apply(config, s, first).value, steps).Some?
    requires again.SaveContract? && again.workspace == first.workspace
    requires ValidContract(again.contract) && Reordered(first.contract, again.contract)
    ensures
      var saved := Save(s.tables, first.workspace, first.contract, first.operatorUuid, first.contractUuid).value.0;
      var t := Exec(config, Apply(config, s, first).value, steps).value.tables;
      var resaved := Save(t, again.workspace, again.contract, again.operatorUuid, again.contractUuid);
      && resaved.Some? && resaved.value.0 == saved.(created := false)
      && resaved.value.1.versions == t.versions && resaved.value.1.byDigest == t.byDigest
  {
    hide Inv, Exec, VariantsGrow, JobsGrow, VersionsGrow, DigestOf, Savable, Save;
    SavableIsValid(config, first.contract);
    DigestDecides(first.contract, again.contract);
    SameName(first.contract, again.contract);
    StepKeeps(config, s, first);
    RunKeeps(config, Apply(config, s, first).value, steps);
    SavedIsFiled(s.tables, first.workspace, first.contract, first.operatorUuid, first.contractUuid);
    FiledIsFound(Apply(config, s, first).value.tables, Exec(config, Apply(config, s, first).value, steps).value.tables,
                 again.workspace, again.contract, again.operatorUuid, again.contractUuid,
                 Save(s.tables, first.workspace, first.contract, first.operatorUuid, first.contractUuid).value.0);
  }

  predicate Filed(t: Tables, place: (Label, string), digest: Digest, operator: OperatorId, id: ContractId) {
    place in t.byName && t.byName[place] == operator && (operator, digest) in t.byDigest
      && t.byDigest[(operator, digest)] == id
  }

  lemma SavedIsFiled(t: Tables, workspace: Label, c: Contract, operatorUuid: OperatorId, contractUuid: ContractId)
    requires Save(t, workspace, c, operatorUuid, contractUuid).Some?
    ensures var (saved, t') := Save(t, workspace, c, operatorUuid, contractUuid).value;
      Filed(t', (workspace, c.name), DigestOf(c), saved.operator, saved.contract)
  {
    hide DigestOf, Max, Numbers;
  }

  lemma FiledIsFound(t: Tables, t': Tables, workspace: Label, c: Contract, operatorUuid: OperatorId,
                     contractUuid: ContractId, saved: Saved)
    requires VersionsGrow(t, t') && Filed(t, (workspace, c.name), DigestOf(c), saved.operator, saved.contract)
    ensures var resaved := Save(t', workspace, c, operatorUuid, contractUuid);
      && resaved.Some? && resaved.value.0 == saved.(created := false)
      && resaved.value.1.versions == t'.versions && resaved.value.1.byDigest == t'.byDigest
  {
    hide DigestOf, Max, Numbers;
  }

  lemma SavableIsValid(config: Config, c: Contract)
    requires Savable(config, c)
    ensures ValidContract(c) && c.origin.ref.Some?
  {
  }

  /** A variant is PUBLISHED exactly when it has a READY job, and then it shows what such a job made. */
  lemma PublishedIffReady(config: Config, s: Service, v: VariantId)
    requires Reachable(config, s) && v in s.tables.variants
    ensures s.tables.variants[v].status.Published? <==> exists j :: DoneFor(s.tables.jobs, v, j)
    ensures s.tables.variants[v].status.Published? ==>
      exists j :: DoneFor(s.tables.jobs, v, j) && s.tables.jobs[j].artifact == s.tables.variants[v].publishedRef
        && s.tables.jobs[j].artifact.Some?
  {
    hide Reachable;
    ReachableInv(config, s);
    hide PlansOk, Dense, DigestsOk, RowsOk, ThreadsOk, Derived;
    assert VariantOk(config, s.tables, v, s.tables.variants[v]);
  }

  /** Neither failures nor recompiles take PUBLISHED away or change a variant's backend contract. */
  lemma PublishedForever(config: Config, s: Service, steps: seq<Step>, v: VariantId)
    requires Reachable(config, s) && Exec(config, s, steps).Some? && v in s.tables.variants
    ensures var t := Exec(config, s, steps).value.tables;
      && v in t.variants && t.variants[v].content == s.tables.variants[v].content
      && t.variants[v].key == s.tables.variants[v].key
      && (s.tables.variants[v].status.Published? ==> t.variants[v].status.Published?)
  {
    hide Reachable, Inv, Exec;
    ReachableInv(config, s);
    RunKeeps(config, s, steps);
  }

  // ---------------------------------------------------------------- what comes back from the store

  /** JSONB gives the contract back with the keys of its objects in another order, and nothing else changed. */
  predicate OnlyReorders(config: Config, c: Contract) {
    ValidContract(config.reload(c)) && Reordered(c, config.reload(c))
  }

  /**
   * The digest of a reloaded contract is the one it was saved under exactly when the store
   * changed nothing but the order of its bindings.
   */
  lemma ReloadedDigest(config: Config, s: Service, id: ContractId)
    requires Reachable(config, s) && id in s.tables.versions
    requires ValidContract(config.reload(s.tables.versions[id].contract))
    ensures var row := s.tables.versions[id];
      DigestOf(config.reload(row.contract)) == row.digest <==> OnlyReorders(config, row.contract)
  {
    hide Reachable, DigestOf, Reordered, Savable;
    ReachableInv(config, s);
    hide PlansOk, Dense, DigestsOk, VariantsOk, PublishedOk, ThreadsOk;
    var row := s.tables.versions[id];
    assert RowOk(config, row);
    SavableIsValid(config, row.contract);
    DigestDecides(row.contract, config.reload(row.contract));
  }

  /**
   * Recompiling a reloaded contract: it always compiles again, the plan carries the digest of
   * the row and is the plan of the save up to defaults Python cannot tell apart, and it is
   * exactly that plan when no key is left to the last of several defaults.
   */
  lemma ReloadedPlan(config: Config, s: Service, id: ContractId)
    requires Reachable(config, s) && id in s.tables.versions && OnlyReorders(config, s.tables.versions[id].contract)
    ensures var row := s.tables.versions[id];
      && Savable(config, row.contract)
      && (Load(config, row).Some? <==> row.sourceRef != "")
      && (Load(config, row).Some? ==>
            var (plan, saved) :=
              (Load(config, row).value.plan, Compile(row.contract, CatalogOf(config, row.contract)).value);
            && plan.digest == row.digest && AlikePlans(saved, plan) && (Settled(row.contract) ==> plan == saved))
  {
    hide Reachable, DigestOf, Compile, Settled, AlikePlans;
    ReachableInv(config, s);
    hide PlansOk, Dense, DigestsOk, VariantsOk, PublishedOk, ThreadsOk;
    var row := s.tables.versions[id];
    assert RowOk(config, row);
    var (c, c') := (row.contract, config.reload(row.contract));
    assert CatalogOf(config, c') == CatalogOf(config, c);
    ReorderedCompiles(c, c', CatalogOf(config, c));
    PlanDigest(c, CatalogOf(config, c));
    PlanDigest(c', CatalogOf(config, c));
    DigestDecides(c, c');
    if Settled(c) { SettledReorders(c, c', CatalogOf(config, c)); }
  }

  lemma PlanDigest(c: Contract, catalog: Catalog)
    requires ValidContract(c) && Compile(c, catalog).Ok?
    ensures Compile(c, catalog).value.digest == DigestOf(c)
  {
    hide Selected, Declared, Payloads, InKeyOrder, TargetPayload, DigestOf;
  }

  /** The backend contract the saved contract itself compiles to. */
  function ChildAsSaved(config: Config, id: ContractId, row: Version, backend: Backend,
                        options: Options): BackendContract
    requires Savable(config, row.contract)
  {
    var requirements := config.requirements(row.sourceRef);
    Child(id, row.number, row.contract, Compile(row.contract, CatalogOf(config, row.contract)).value, backend, options,
          if requirements.Some? then requirements.value else [])
  }

  /**
   * Every variant, in every reachable state, is filed under the key of its stored contract and
   * holds what that contract compiles to as it was saved, for settled contracts and a store
   * that only reorders.
   */
  lemma PublishedAsSaved(config: Config, s: Service, v: VariantId)
    requires Reachable(config, s) && v in s.tables.variants && s.tables.variants[v].contract in s.tables.versions
    requires var row := s.tables.versions[s.tables.variants[v].contract];
      OnlyReorders(config, row.contract) && Settled(row.contract)
    ensures var (variant, row) := (s.tables.variants[v], s.tables.versions[s.tables.variants[v].contract]);
      && Savable(config, row.contract) && variant.key.digest == row.digest
      && variant.content == ChildAsSaved(config, variant.contract, row, variant.backend, variant.key.options)
  {
    hide Reachable, DigestOf, Compile, Settled, Reordered, ValidContract, AlikePlans;
    var (variant, id) := (s.tables.variants[v], s.tables.variants[v].contract);
    VariantIsDerived(config, s, v);
    ReloadedPlan(config, s, id);
    ReachableRow(config, s, id);
    DigestDecides(s.tables.versions[id].contract, config.reload(s.tables.versions[id].contract));
    SameName(s.tables.versions[id].contract, config.reload(s.tables.versions[id].contract));
  }

  lemma SameName(c: Contract, c': Contract)
    requires Reordered(c, c')
    ensures c'.name == c.name && c'.origin == c.origin
  {
  }

  lemma ReachableRow(config: Config, s: Service, id: ContractId)
    requires Reachable(config, s) && id in s.tables.versions
    ensures RowOk(config, s.tables.versions[id]) && ValidContract(s.tables.versions[id].contract)
  {
    hide Reachable, Savable, DigestOf;
    ReachableInv(config, s);
    SavableIsValid(config, s.tables.versions[id].contract);
  }

  /** Every variant is what the compilers make of its reloaded contract and of the options in its key. */
  lemma VariantIsDerived(config: Config, s: Service, v: VariantId)
    requires Reachable(config, s) && v in s.tables.variants
    ensures var variant := s.tables.variants[v];
      variant.contract in s.tables.versions
        && Derived(config, variant.contract, s.tables.versions[variant.contract], variant)
  {
    hide Reachable, Derived;
    ReachableInv(config, s);
    hide PlansOk, Dense, DigestsOk, RowsOk, PublishedOk, ThreadsOk;
    assert VariantOk(config, s.tables, v, s.tables.variants[v]);
  }
}
