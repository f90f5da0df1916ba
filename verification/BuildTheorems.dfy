/** What the build tables keep under every interleaving, and what a caller may rely on. */
module BuildTheorems {
  import opened Prelude
  import opened BuildModel
  import opened BuildStore
  import opened BuildService

  // ---------------------------------------------------------------- invariants

  /** A row is what its spec says, is the one its key leads to, and has an image only if READY. */
  predicate RowOk(parse: Parser, index: map<EnvKey, EnvId>, e: EnvId, env: Env) {
    && env.key == KeyOf(env.spec) && env.packages == Wanted(parse, env.key) && env.packageCount == |env.packages|
    && (env.image.Some? <==> env.status.Ready?)
    && env.key in index && index[env.key] == e
  }

  ghost predicate RowsOk(parse: Parser, store: Store) {
    && (forall e :: e in store.envs ==> RowOk(parse, store.index, e, store.envs[e]))
    && (forall k :: k in store.index ==> store.index[k] in store.envs && store.envs[store.index[k]].key == k)
  }

  predicate Active(status: Status) {
    status.Building? || status.Verifying? || status.Ready?
  }

  /** The one job of `e` that is not FAILED, with the very status of its environment. */
  predicate Drives(store: Store, e: EnvId, j: JobId)
    requires e in store.envs
  {
    j in store.jobs && store.jobs[j] == Job(e, store.envs[e].status) && Active(store.envs[e].status)
  }

  ghost predicate JobsOk(store: Store, current: map<EnvId, JobId>) {
    && (forall j :: j in store.jobs ==>
          var e := store.jobs[j].env;
          e in store.envs && (store.jobs[j].status.Failed? || (e in current && current[e] == j && Drives(store, e, j))))
    && (forall e :: e in store.envs && Active(store.envs[e].status) ==> e in current && Drives(store, e, current[e]))
  }

  /** An environment answers a request: same platform, and every pinned package is in it. */
  predicate Serves(parse: Parser, key: EnvKey, env: Env) {
    Compatible(env.spec, key) && Contains(env.packages, Wanted(parse, key))
  }

  ghost predicate AliasesOk(parse: Parser, store: Store) {
    forall k :: k in store.aliases ==>
      var alias := store.aliases[k];
      && alias.env in store.envs
      && (alias.kind.Exact? ==> store.envs[alias.env].key == k)
      && (alias.kind.Superset? ==> store.envs[alias.env].status.Ready? && Serves(parse, k, store.envs[alias.env]))
  }

  predicate Owns(p: Plant, t: ThreadId, e: EnvId, j: JobId, status: Status) {
    && e in p.store.envs && p.store.envs[e].status == status && e in p.current && p.current[e] == j
    && j in p.builder && p.builder[j] == t && j in p.store.jobs && p.store.jobs[j] == Job(e, status)
  }

  predicate Tested(parse: Parser, p: Plant, e: EnvId, image: Image, spec: Spec) {
    e in p.verified && p.verified[e] == (image, PackagesOf(parse, spec))
  }

  ghost predicate ThreadOk(parse: Parser, p: Plant, t: ThreadId, th: Thread) {
    match th.pc
    case BindingSuperset(e) => e in p.store.envs && p.store.envs[e].status.Ready?
      && Serves(parse, RequestOf(th), p.store.envs[e])
    case BindingExact(e, _) => e in p.store.envs && p.store.envs[e].key == RequestOf(th)
    case Claiming(e, spec) => e in p.store.envs && p.store.envs[e].spec == spec
    case Making(e, j, spec) => Owns(p, t, e, j, Building) && p.store.envs[e].spec == spec
    case Made(e, j, spec, _) => Owns(p, t, e, j, Building) && p.store.envs[e].spec == spec
    case Checking(e, j, spec, _) => Owns(p, t, e, j, Verifying) && p.store.envs[e].spec == spec
    case Passed(e, j, spec, image) => Owns(p, t, e, j, Verifying) && p.store.envs[e].spec == spec
      && Tested(parse, p, e, image, spec)
    case Failing(e, j) => Owns(p, t, e, j, Building) || Owns(p, t, e, j, Verifying)
    case Resetting(e) => e in p.store.envs
    case Answered(answer) => answer.Some? ==> AnswerOk(parse, p, RequestOf(th), answer.value)
    case _ => true
  }

  /** The answer was a row of the environment it names, and a READY one is still that row. */
  predicate AnswerOk(parse: Parser, p: Plant, key: EnvKey, answer: Answer) {
    && answer.e in p.store.envs && answer.env.spec == p.store.envs[answer.e].spec
    && Serves(parse, key, answer.env)
    && (answer.kind.Exact? ==> answer.env.key == key)
    && (answer.env.status.Ready? ==> answer.env == p.store.envs[answer.e])
  }

  ghost predicate VerifiedOk(store: Store, verified: map<EnvId, (Image, Packages)>) {
    forall e :: e in store.envs && store.envs[e].status.Ready? ==>
      e in verified && store.envs[e].image == Some(verified[e].0) && store.envs[e].packages == verified[e].1
  }

  ghost predicate StoreOk(parse: Parser, p: Plant) {
    RowsOk(parse, p.store) && JobsOk(p.store, p.current) && AliasesOk(parse, p.store) && VerifiedOk(p.store, p.verified)
  }

  ghost predicate ThreadsOk(parse: Parser, p: Plant) {
    forall t :: t in p.threads ==> ThreadOk(parse, p, t, p.threads[t])
  }

  ghost predicate Inv(parse: Parser, p: Plant) {
    StoreOk(parse, p) && ThreadsOk(parse, p)
  }

  // ---------------------------------------------------------------- keys determine specs

  lemma KeysAreInjective(a: Spec, b: Spec)
    ensures KeyOf(a) == KeyOf(b) <==> a == b
  {
  }

  lemma ContainsItself(packages: Packages)
    ensures Contains(packages, packages)
  {
  }

  /** Exact or superset, a bound environment serves the request it is bound to. */
  lemma AliasServes(parse: Parser, store: Store, key: EnvKey)
    requires RowsOk(parse, store) && AliasesOk(parse, store) && key in store.aliases
    ensures var alias := store.aliases[key]; alias.env in store.envs && Serves(parse, key, store.envs[alias.env])
  {
    var e := store.aliases[key].env;
    ContainsItself(store.envs[e].packages);
  }

  // ---------------------------------------------------------------- how the tables may change

  /** Rows keep their identity, READY rows stay exactly as they are, aliases are never rebound. */
  ghost predicate Grows(store: Store, store': Store) {
    && (forall e :: e in store.envs ==> e in store'.envs && SameIdentity(store.envs[e], store'.envs[e]))
    && (forall e :: e in store.envs && store.envs[e].status.Ready? ==> store'.envs[e] == store.envs[e])
    && (forall k :: k in store.aliases ==> k in store'.aliases && store'.aliases[k] == store.aliases[k])
  }

  predicate SameIdentity(env: Env, env': Env) {
    && env'.key == env.key && env'.spec == env.spec && env'.packages == env.packages
    && env'.packageCount == env.packageCount && env'.createdAt == env.createdAt
  }

  predicate InProgress(status: Status) {
    status.Building? || status.Verifying?
  }

  /** Builds of other threads go on undisturbed. */
  ghost predicate Undisturbed(p: Plant, p': Plant, t: ThreadId) {
    && Grows(p.store, p'.store)
    && (forall u, e, j, status :: u != t && InProgress(status) && Owns(p, u, e, j, status) ==>
          Owns(p', u, e, j, status) && (e in p.verified ==> e in p'.verified && p'.verified[e] == p.verified[e]))
  }

  lemma OthersStand(parse: Parser, p: Plant, p': Plant, t: ThreadId, u: ThreadId, th: Thread)
    requires ThreadOk(parse, p, u, th) && Undisturbed(p, p', t) && u != t
    ensures ThreadOk(parse, p', u, th)
  {
  }

  /** One thread moved: it stands on its new ground, the others stand where they stood. */
  lemma ThreadMoves(parse: Parser, p: Plant, p': Plant, t: ThreadId, th: Thread)
    requires ThreadsOk(parse, p) && Undisturbed(p, p', t) && p'.threads == p.threads[t := th]
    requires ThreadOk(parse, p', t, th)
    ensures ThreadsOk(parse, p')
  {
    hide ThreadOk, Undisturbed;
    forall u | u in p'.threads ensures ThreadOk(parse, p', u, p'.threads[u]) {
      if u != t { OthersStand(parse, p, p', t, u, p.threads[u]); }
    }
  }

  // ---------------------------------------------------------------- transactions keep the tables

  lemma BindKeeps(parse: Parser, p: Plant, key: EnvKey, e: EnvId, kind: Kind)
    requires StoreOk(parse, p) && e in p.store.envs
    requires kind.Exact? ==> p.store.envs[e].key == key
    requires kind.Superset? ==> p.store.envs[e].status.Ready? && Serves(parse, key, p.store.envs[e])
    ensures StoreOk(parse, p.(store := Bind(p.store, key, e, kind))) && Grows(p.store, Bind(p.store, key, e, kind))
  {
    hide RowsOk, JobsOk, VerifiedOk, Serves;
    SameEnvs(parse, p.store, Bind(p.store, key, e, kind), p.current, p.verified);
  }

  lemma SameEnvs(parse: Parser, store: Store, store': Store, current: map<EnvId, JobId>,
                 verified: map<EnvId, (Image, Packages)>)
    requires store' == store.(aliases := store'.aliases)
    requires RowsOk(parse, store) && JobsOk(store, current) && VerifiedOk(store, verified)
    ensures RowsOk(parse, store') && JobsOk(store', current) && VerifiedOk(store', verified)
  {
    hide Wanted, KeyOf;
  }

  /** One row that is not READY changes status; nothing else about the environments does. */
  ghost predicate Turns(store: Store, store': Store, e: EnvId) {
    && e in store.envs && e in store'.envs && store'.envs == store.envs[e := store'.envs[e]]
    && store'.index == store.index && store'.aliases == store.aliases
    && SameIdentity(store.envs[e], store'.envs[e]) && !store.envs[e].status.Ready?
    && (store'.envs[e].image.Some? <==> store'.envs[e].status.Ready?)
  }

  lemma TurnKeepsRows(parse: Parser, store: Store, store': Store, e: EnvId)
    requires RowsOk(parse, store) && Turns(store, store', e)
    ensures RowsOk(parse, store')
  {
    hide Wanted, KeyOf;
  }

  lemma TurnKeepsAliases(parse: Parser, store: Store, store': Store, e: EnvId)
    requires AliasesOk(parse, store) && Turns(store, store', e)
    ensures AliasesOk(parse, store') && Grows(store, store')
  {
    hide Serves;
  }

  lemma TurnKeepsVerified(p: Plant, p': Plant, e: EnvId)
    requires VerifiedOk(p.store, p.verified) && Turns(p.store, p'.store, e) && p'.verified == p.verified
    requires p'.store.envs[e].status.Ready? ==>
      e in p.verified && p'.store.envs[e].image == Some(p.verified[e].0) && p'.store.envs[e].packages == p.verified[e].1
    ensures VerifiedOk(p'.store, p'.verified)
  {
  }

  lemma CreateKeeps(parse: Parser, p: Plant, spec: Spec, now: int, uuid: EnvId)
    requires StoreOk(parse, p) && uuid !in p.store.envs
    ensures var (e, store) := CreateExact(p.store, spec, PackagesOf(parse, spec), now, uuid);
      StoreOk(parse, p.(store := store)) && Grows(p.store, store) && e in store.envs && store.envs[e].key == KeyOf(spec)
  {
    hide Serves, Wanted, KeyOf;
    var (e, store) := CreateExact(p.store, spec, PackagesOf(parse, spec), now, uuid);
    if KeyOf(spec) !in p.store.index {
      CreateKeepsRows(parse, p.store, store, NewEnv(spec, PackagesOf(parse, spec), now), uuid);
      CreateKeepsRest(parse, p, p.(store := store), uuid);
    }
  }

  lemma CreateKeepsRows(parse: Parser, store: Store, store': Store, env: Env, e: EnvId)
    requires RowsOk(parse, store) && e !in store.envs && env.key !in store.index
    requires env.key == KeyOf(env.spec) && env.packages == Wanted(parse, env.key) && env.packageCount == |env.packages|
    requires env.image.None? && env.status.Pending?
    requires store' == store.(envs := store.envs[e := env], index := store.index[env.key := e])
    ensures RowsOk(parse, store')
  {
    hide RowOk, Wanted, KeyOf;
    forall f | f in store'.envs ensures RowOk(parse, store'.index, f, store'.envs[f]) {
      if f == e {
        NewRowOk(parse, store.index, e, env);
        } else { RowStays(parse, store.index, f, store.envs[f], env.key, e);
      }
    }
  }

  lemma NewRowOk(parse: Parser, index: map<EnvKey, EnvId>, e: EnvId, env: Env)
    requires env.key == KeyOf(env.spec) && env.packages == Wanted(parse, env.key) && env.packageCount == |env.packages|
    requires env.image.None? && env.status.Pending?
    ensures RowOk(parse, index[env.key := e], e, env)
  {
  }

  lemma RowStays(parse: Parser, index: map<EnvKey, EnvId>, f: EnvId, env: Env, key: EnvKey, e: EnvId)
    requires RowOk(parse, index, f, env) && key !in index
    ensures RowOk(parse, index[key := e], f, env)
  {
  }

  lemma CreateKeepsRest(parse: Parser, p: Plant, p': Plant, e: EnvId)
    requires JobsOk(p.store, p.current) && AliasesOk(parse, p.store) && VerifiedOk(p.store, p.verified)
    requires e !in p.store.envs && e in p'.store.envs && p'.store.envs[e].status.Pending?
    requires p' == p.(store := p'.store) && p'.store.envs == p.store.envs[e := p'.store.envs[e]]
    requires p'.store.aliases == p.store.aliases && p'.store.jobs == p.store.jobs
    ensures JobsOk(p'.store, p'.current) && AliasesOk(parse, p'.store) && VerifiedOk(p'.store, p'.verified)
    ensures Grows(p.store, p'.store)
  {
    hide Serves;
  }

  lemma ClaimKeeps(parse: Parser, p: Plant, e: EnvId, uuid: JobId)
    requires StoreOk(parse, p) && uuid !in p.store.jobs && ClaimBuild(p.store, e, uuid).0
    ensures var store := ClaimBuild(p.store, e, uuid).1;
      StoreOk(parse, p.(store := store, current := p.current[e := uuid])) && Grows(p.store, store)
  {
    hide AliasesOk, JobsOk, VerifiedOk;
    var p' := p.(store := ClaimBuild(p.store, e, uuid).1, current := p.current[e := uuid]);
    TurnKeepsRows(parse, p.store, p'.store, e);
    TurnKeepsAliases(parse, p.store, p'.store, e);
    TurnKeepsVerified(p, p', e);
    ClaimKeepsJobs(p.store, p.current, e, uuid);
  }

  lemma ClaimKeepsJobs(store: Store, current: map<EnvId, JobId>, e: EnvId, uuid: JobId)
    requires JobsOk(store, current) && uuid !in store.jobs && ClaimBuild(store, e, uuid).0
    ensures JobsOk(ClaimBuild(store, e, uuid).1, current[e := uuid])
  {
  }

  lemma ResetKeeps(parse: Parser, p: Plant, e: EnvId)
    requires StoreOk(parse, p) && ResetFailed(p.store, e).0
    ensures var store := ResetFailed(p.store, e).1; StoreOk(parse, p.(store := store)) && Grows(p.store, store)
  {
    hide RowsOk, AliasesOk, JobsOk, VerifiedOk, SameIdentity;
    var p' := p.(store := ResetFailed(p.store, e).1);
    SameIdentityIntro(p.store.envs[e], Pending, None);
    TurnKeepsRows(parse, p.store, p'.store, e);
    TurnKeepsAliases(parse, p.store, p'.store, e);
    TurnKeepsVerified(p, p', e);
    ResetKeepsJobs(p.store, p.current, e);
  }

  lemma ResetKeepsJobs(store: Store, current: map<EnvId, JobId>, e: EnvId)
    requires JobsOk(store, current) && ResetFailed(store, e).0
    ensures JobsOk(ResetFailed(store, e).1, current)
  {
  }

  lemma SameIdentityIntro(env: Env, status: Status, image: Option<Image>)
    ensures SameIdentity(env, env.(status := status, image := image))
  {
  }

  lemma MarkKeeps(parse: Parser, p: Plant, t: ThreadId, e: EnvId, j: JobId, before: Status, status: Status,
                  image: Option<Image>)
    requires StoreOk(parse, p) && InProgress(before) && Owns(p, t, e, j, before) && !status.Pending?
    requires image.Some? <==> status.Ready?
    requires status.Ready? ==> Tested(parse, p, e, image.value, p.store.envs[e].spec)
    ensures var store := Mark(p.store, e, j, status, image);
      StoreOk(parse, p.(store := store)) && Grows(p.store, store)
        && (InProgress(status) ==> Owns(p.(store := store), t, e, j, status))
  {
    hide AliasesOk, JobsOk, VerifiedOk, RowsOk, Turns, Wanted, KeyOf;
    var p' := p.(store := Mark(p.store, e, j, status, image));
    MarkTurns(parse, p, e, j, status, image);
    TurnKeepsRows(parse, p.store, p'.store, e);
    TurnKeepsAliases(parse, p.store, p'.store, e);
    TurnKeepsVerified(p, p', e);
    MarkKeepsJobs(p.store, p.current, e, j, status, image);
  }

  lemma MarkTurns(parse: Parser, p: Plant, e: EnvId, j: JobId, status: Status, image: Option<Image>)
    requires RowsOk(parse, p.store) && e in p.store.envs && InProgress(p.store.envs[e].status)
    requires image.Some? <==> status.Ready?
    requires status.Ready? ==> Tested(parse, p, e, image.value, p.store.envs[e].spec)
    ensures var p' := p.(store := Mark(p.store, e, j, status, image));
      && Turns(p.store, p'.store, e) && p'.store.envs[e].status == status
      && (status.Ready? ==>
            e in p.verified && p'.store.envs[e].image == Some(p.verified[e].0)
              && p'.store.envs[e].packages == p.verified[e].1)
  {
    hide SameIdentity, Wanted, KeyOf;
    assert RowOk(parse, p.store.index, e, p.store.envs[e]);
    SameIdentityIntro(p.store.envs[e], status, Mark(p.store, e, j, status, image).envs[e].image);
  }

  lemma MarkKeepsJobs(store: Store, current: map<EnvId, JobId>, e: EnvId, j: JobId, status: Status,
                      image: Option<Image>)
    requires JobsOk(store, current) && e in store.envs && j in store.jobs && InProgress(store.envs[e].status)
    requires !status.Pending?
    requires store.jobs[j] == Job(e, store.envs[e].status) && e in current && current[e] == j
    ensures JobsOk(Mark(store, e, j, status, image), current)
  {
  }

  // ---------------------------------------------------------------- every step

  /** A step that leaves the tables and the history alone. */
  lemma QuietMove(parse: Parser, p: Plant, p': Plant, t: ThreadId, th: Thread)
    requires Inv(parse, p) && p' == p.(threads := p.threads[t := th]) && ThreadOk(parse, p', t, th)
    ensures Inv(parse, p')
  {
    hide ThreadOk, RowsOk, JobsOk, AliasesOk;
    QuietStore(p, p', t);
    ThreadMoves(parse, p, p', t, th);
  }

  lemma QuietStore(p: Plant, p': Plant, t: ThreadId)
    requires p' == p.(threads := p'.threads)
    ensures Undisturbed(p, p', t)
  {
  }

  predicate QuietStep(step: Step) {
    || step.StartResolve? || step.StartRetry? || step.Look? || step.Search? || step.Make?
    || step.Reread? || step.RetryLook? || step.Raise?
  }

  lemma AnswersOk(parse: Parser, p: Plant, key: EnvKey)
    requires StoreOk(parse, p) && GetForRequest(p.store, key).Some?
    ensures AnswerOk(parse, p, key, GetForRequest(p.store, key).value)
  {
    hide Serves;
    AliasServes(parse, p.store, key);
  }

  /** The heart of resolve: a PENDING row found under a key is bound exactly, so it carries the request's own spec. */
  lemma PendingMeansOwnSpec(parse: Parser, p: Plant, spec: Spec)
    requires StoreOk(parse, p)
    ensures var found := GetForRequest(p.store, KeyOf(spec));
      found.Some? && found.value.env.status.Pending? ==> found.value.env.spec == spec
  {
    var found := GetForRequest(p.store, KeyOf(spec));
    if found.Some? { KeysAreInjective(found.value.env.spec, spec); }
  }

  /** What a lookup finds is fit to answer the request, or to build it. */
  lemma LookFits(parse: Parser, p: Plant, t: ThreadId, reuse: bool)
    requires StoreOk(parse, p) && LookStep(p, t, reuse).Some?
    ensures var th := LookStep(p, t, reuse).value.threads[t]; ThreadOk(parse, p, t, th)
  {
    hide RowsOk, JobsOk, AliasesOk, VerifiedOk, Serves, Wanted;
    PendingMeansOwnSpec(parse, p, p.threads[t].spec);
    if GetForRequest(p.store, RequestOf(p.threads[t])).Some? { AnswersOk(parse, p, RequestOf(p.threads[t])); }
  }

  lemma RereadFits(parse: Parser, p: Plant, t: ThreadId)
    requires StoreOk(parse, p) && RereadStep(p, t).Some?
    ensures ThreadOk(parse, p, t, RereadStep(p, t).value.threads[t])
  {
    hide RowsOk, JobsOk, AliasesOk, VerifiedOk, Serves, Wanted;
    if GetForRequest(p.store, RequestOf(p.threads[t])).Some? { AnswersOk(parse, p, RequestOf(p.threads[t])); }
  }

  lemma QuietFits(parse: Parser, p: Plant, step: Step)
    requires ThreadsOk(parse, p) && QuietStep(step) && !step.Look? && !step.Reread?
    requires Apply(parse, p, step).Some?
    ensures var p' := Apply(parse, p, step).value;
      step.t in p'.threads && ThreadOk(parse, p, step.t, p'.threads[step.t])
  {
    hide ThreadOk, Apply;
    if step.Search? {
      SearchFits(parse, p, step);
    } else {
      if step.t in p.threads { assert ThreadOk(parse, p, step.t, p.threads[step.t]); }
      AloneFits(parse, p, step);
    }
  }

  lemma SearchFits(parse: Parser, p: Plant, step: Step)
    requires step.Search? && Apply(parse, p, step).Some?
    ensures var p' := Apply(parse, p, step).value;
      step.t in p'.threads && ThreadOk(parse, p, step.t, p'.threads[step.t])
  {
    hide Serves, SmallestSuperset, Wanted;
    if step.found.Some? { SearchServes(parse, p, step.t, step.found); }
  }

  lemma AloneFits(parse: Parser, p: Plant, step: Step)
    requires QuietStep(step) && !step.Look? && !step.Reread? && !step.Search? && Apply(parse, p, step).Some?
    requires step.t in p.threads ==> ThreadOk(parse, p, step.t, p.threads[step.t])
    ensures var p' := Apply(parse, p, step).value;
      step.t in p'.threads && ThreadOk(parse, p, step.t, p'.threads[step.t])
  {
    hide Serves, Wanted, SmallestSuperset, AnswerOk, Tested, Owns;
  }

  lemma QuietThreads(parse: Parser, p: Plant, step: Step)
    requires QuietStep(step) && Apply(parse, p, step).Some?
    ensures var p' := Apply(parse, p, step).value;
      step.t in p'.threads && p' == p.(threads := p.threads[step.t := p'.threads[step.t]])
  {
    hide Wanted, GetForRequest, SmallestSuperset;
  }

  lemma SameFooting(parse: Parser, p: Plant, p': Plant, t: ThreadId, th: Thread)
    requires ThreadOk(parse, p, t, th) && p' == p.(threads := p'.threads)
    ensures ThreadOk(parse, p', t, th)
  {
    hide Serves;
  }

  lemma QuietKeeps(parse: Parser, p: Plant, step: Step)
    requires Inv(parse, p) && QuietStep(step) && Apply(parse, p, step).Some?
    ensures Inv(parse, Apply(parse, p, step).value)
  {
    hide StoreOk, ThreadsOk, ThreadOk, LookStep, RereadStep;
    var p' := Apply(parse, p, step).value;
    QuietThreads(parse, p, step);
    if step.Look? { LookFits(parse, p, step.t, step.reuse); }
    else if step.Reread? { RereadFits(parse, p, step.t); }
    else { QuietFits(parse, p, step); }
    hide Apply;
    SameFooting(parse, p, p', step.t, p'.threads[step.t]);
    QuietMove(parse, p, p', step.t, p'.threads[step.t]);
  }

  lemma SearchServes(parse: Parser, p: Plant, t: ThreadId, found: Option<EnvId>)
    requires SearchStep(parse, p, t, found).Some? && found.Some?
    ensures found.value in p.store.envs && p.store.envs[found.value].status.Ready?
    ensures Serves(parse, RequestOf(p.threads[t]), p.store.envs[found.value])
  {
  }

  lemma BindStepKeeps(parse: Parser, p: Plant, step: Step)
    requires Inv(parse, p) && (step.BindSuperset? || step.BindExact?) && Apply(parse, p, step).Some?
    ensures Inv(parse, Apply(parse, p, step).value)
  {
    hide RowsOk, JobsOk, AliasesOk, VerifiedOk, Serves, Wanted;
    var p' := Apply(parse, p, step).value;
    var th := p.threads[step.t];
    assert ThreadOk(parse, p, step.t, th);
    BindKeeps(parse, p, RequestOf(th), th.pc.e, if step.BindSuperset? then Superset else Exact);
    if step.BindExact? { OwnSpec(parse, p.store, th.pc.e, th.spec); }
    SameBuilds(p, p', step.t);
    ThreadMoves(parse, p, p', step.t, p'.threads[step.t]);
  }

  lemma OwnSpec(parse: Parser, store: Store, e: EnvId, spec: Spec)
    requires RowsOk(parse, store) && e in store.envs && store.envs[e].key == KeyOf(spec)
    ensures store.envs[e].spec == spec
  {
    KeysAreInjective(store.envs[e].spec, spec);
  }

  /** Tables grew, and no build that is in progress was touched. */
  lemma SameBuilds(p: Plant, p': Plant, t: ThreadId)
    requires Grows(p.store, p'.store) && p'.current == p.current && p'.builder == p.builder && p'.verified == p.verified
    requires p'.store.jobs == p.store.jobs
    requires forall e :: e in p.store.envs && InProgress(p.store.envs[e].status) ==>
        p'.store.envs[e].status == p.store.envs[e].status
    ensures Undisturbed(p, p', t)
  {
  }

  lemma CreateStepKeeps(parse: Parser, p: Plant, t: ThreadId, now: int, uuid: EnvId)
    requires Inv(parse, p) && CreateStep(parse, p, t, now, uuid).Some?
    ensures Inv(parse, CreateStep(parse, p, t, now, uuid).value)
  {
    hide RowsOk, JobsOk, AliasesOk, VerifiedOk, Serves, Wanted, KeyOf;
    var p' := CreateStep(parse, p, t, now, uuid).value;
    CreateKeeps(parse, p, p.threads[t].spec, now, uuid);
    SameBuilds(p, p', t);
    ThreadMoves(parse, p, p', t, p'.threads[t]);
  }

  lemma ResetStepKeeps(parse: Parser, p: Plant, t: ThreadId)
    requires Inv(parse, p) && ResetStep(p, t).Some?
    ensures Inv(parse, ResetStep(p, t).value)
  {
    hide RowsOk, JobsOk, AliasesOk, VerifiedOk, Serves, Wanted;
    var p' := ResetStep(p, t).value;
    if ResetFailed(p.store, p.threads[t].pc.e).0 {
      ResetKeeps(parse, p, p.threads[t].pc.e);
      SameBuilds(p, p', t);
      ThreadMoves(parse, p, p', t, p'.threads[t]);
    } else {
      QuietMove(parse, p, p', t, p'.threads[t]);
    }
  }

  lemma ClaimStepKeeps(parse: Parser, p: Plant, t: ThreadId, uuid: JobId)
    requires Inv(parse, p) && ClaimStep(p, t, uuid).Some?
    ensures Inv(parse, ClaimStep(p, t, uuid).value)
  {
    hide RowsOk, JobsOk, AliasesOk, VerifiedOk, Serves, Wanted;
    var p' := ClaimStep(p, t, uuid).value;
    var e := p.threads[t].pc.e;
    assert ThreadOk(parse, p, t, p.threads[t]);
    if ClaimBuild(p.store, e, uuid).0 {
      ClaimKeeps(parse, p, e, uuid);
      ClaimLeavesOthers(p, p', t, e, uuid);
      ThreadMoves(parse, p, p', t, p'.threads[t]);
    } else {
      QuietMove(parse, p, p', t, p'.threads[t]);
    }
  }

  lemma ClaimLeavesOthers(p: Plant, p': Plant, t: ThreadId, e: EnvId, uuid: JobId)
    requires uuid !in p.store.jobs && ClaimBuild(p.store, e, uuid).0 && p'.store == ClaimBuild(p.store, e, uuid).1
    requires p'.current == p.current[e := uuid] && p'.builder == p.builder[uuid := t] && p'.verified == p.verified
    requires Grows(p.store, p'.store)
    ensures Undisturbed(p, p', t)
  {
  }

  predicate MarkStep(step: Step) {
    step.MarkVerifying? || step.MarkReady? || step.MarkFailed?
  }

  lemma MarkLeavesOthers(p: Plant, p': Plant, t: ThreadId, e: EnvId, j: JobId, before: Status, status: Status,
                         image: Option<Image>)
    requires Owns(p, t, e, j, before) && Grows(p.store, p'.store)
    requires p'.current == p.current && p'.builder == p.builder && p'.verified == p.verified
    requires p'.store == Mark(p.store, e, j, status, image)
    ensures Undisturbed(p, p', t)
  {
  }

  function Marked(step: Step): Status
    requires MarkStep(step)
  {
    if step.MarkVerifying? then Verifying else if step.MarkReady? then Ready else Failed
  }

  function MarkedImage(step: Step, pc: Pc): Option<Image>
    requires step.MarkReady? ==> pc.Passed?
  {
    if step.MarkReady? then Some(pc.image) else None
  }

  predicate Refused(p: Plant, step: Step, pc: Pc) {
    step.MarkReady? && pc.Passed? && ImageTaken(p.store, pc.e, pc.image)
  }

  /** Who marks has built, and marks READY only what was verified. */
  lemma MarkerOwns(parse: Parser, p: Plant, step: Step)
    requires ThreadsOk(parse, p) && MarkStep(step) && Apply(parse, p, step).Some?
    ensures step.t in p.threads && Builds(p.threads[step.t].pc) && (step.MarkReady? ==> p.threads[step.t].pc.Passed?)
    ensures var pc := p.threads[step.t].pc;
      && pc.e in p.store.envs && InProgress(p.store.envs[pc.e].status)
      && Owns(p, step.t, pc.e, pc.j, p.store.envs[pc.e].status)
      && (step.MarkReady? ==> Tested(parse, p, pc.e, pc.image, p.store.envs[pc.e].spec))
  {
    hide Serves, AnswerOk, Mark, ImageTaken;
    assert ThreadOk(parse, p, step.t, p.threads[step.t]);
  }

  lemma MarkMoves(parse: Parser, p: Plant, step: Step)
    requires ThreadsOk(parse, p) && MarkStep(step) && Apply(parse, p, step).Some?
    ensures step.t in p.threads && Builds(p.threads[step.t].pc) && (step.MarkReady? ==> p.threads[step.t].pc.Passed?)
    ensures var (p', pc) := (Apply(parse, p, step).value, p.threads[step.t].pc);
      var store :=
        if Refused(p, step, pc) then p.store else Mark(p.store, pc.e, pc.j, Marked(step), MarkedImage(step, pc));
      && step.t in p'.threads && p' == p.(store := store, threads := p.threads[step.t := p'.threads[step.t]])
  {
    hide ThreadsOk, Mark, ImageTaken;
  }

  /** The marker stands on its new ground. */
  lemma MarkerStands(parse: Parser, p: Plant, step: Step)
    requires ThreadsOk(parse, p) && MarkStep(step) && Apply(parse, p, step).Some? && step.t in p.threads
    requires Builds(p.threads[step.t].pc)
    requires var (p', pc) := (Apply(parse, p, step).value, p.threads[step.t].pc);
      && Grows(p.store, p'.store)
      && (!Refused(p, step, pc) && InProgress(Marked(step)) ==> Owns(p', step.t, pc.e, pc.j, Marked(step)))
    ensures var p' := Apply(parse, p, step).value;
      step.t in p'.threads && ThreadOk(parse, p', step.t, p'.threads[step.t])
  {
    hide Serves, AnswerOk, Mark, ImageTaken;
    assert ThreadOk(parse, p, step.t, p.threads[step.t]);
  }

  lemma MarkStepKeeps(parse: Parser, p: Plant, step: Step)
    requires Inv(parse, p) && MarkStep(step) && Apply(parse, p, step).Some?
    ensures Inv(parse, Apply(parse, p, step).value)
  {
    hide StoreOk, ThreadsOk, ThreadOk, Apply, Grows, Mark, Owns, Undisturbed, ImageTaken, Tested;
    var p' := Apply(parse, p, step).value;
    MarkMoves(parse, p, step);
    MarkerOwns(parse, p, step);
    var (t, pc) := (step.t, p.threads[step.t].pc);
    if Refused(p, step, pc) {
      GrowsItself(p.store);
      MarkerStands(parse, p, step);
      QuietMove(parse, p, p', t, p'.threads[t]);
    } else {
      var before := p.store.envs[pc.e].status;
      MarkKeeps(parse, p, t, pc.e, pc.j, before, Marked(step), MarkedImage(step, pc));
      SameStore(parse, p.(store := p'.store), p');
      if InProgress(Marked(step)) { SameOwner(p.(store := p'.store), p', t, pc.e, pc.j, Marked(step)); }
      MarkerStands(parse, p, step);
      MarkLeavesOthers(p, p', t, pc.e, pc.j, before, Marked(step), MarkedImage(step, pc));
      ThreadMoves(parse, p, p', t, p'.threads[t]);
    }
  }

  lemma SameStore(parse: Parser, p: Plant, p': Plant)
    requires StoreOk(parse, p) && p' == p.(threads := p'.threads)
    ensures StoreOk(parse, p')
  {
  }

  lemma SameOwner(p: Plant, p': Plant, t: ThreadId, e: EnvId, j: JobId, status: Status)
    requires Owns(p, t, e, j, status) && p' == p.(threads := p'.threads)
    ensures Owns(p', t, e, j, status)
  {
  }

  lemma VerifyStepKeeps(parse: Parser, p: Plant, t: ThreadId, ok: bool)
    requires Inv(parse, p) && VerifyStep(parse, p, t, ok).Some?
    ensures Inv(parse, VerifyStep(parse, p, t, ok).value)
  {
    hide RowsOk, JobsOk, AliasesOk, Serves, Wanted;
    var p' := VerifyStep(parse, p, t, ok).value;
    assert ThreadOk(parse, p, t, p.threads[t]);
    if ok {
      VerifyLeavesOthers(p, p', t, p.threads[t].pc.e, p.threads[t].pc.j);
      ThreadMoves(parse, p, p', t, p'.threads[t]);
    } else {
      QuietMove(parse, p, p', t, p'.threads[t]);
    }
  }

  lemma VerifyLeavesOthers(p: Plant, p': Plant, t: ThreadId, e: EnvId, j: JobId)
    requires Owns(p, t, e, j, Verifying) && e in p'.verified
    requires p'.store == p.store && p'.current == p.current && p'.builder == p.builder
    requires p'.verified == p.verified[e := p'.verified[e]]
    ensures Undisturbed(p, p', t)
  {
  }

  lemma StepInv(parse: Parser, p: Plant, step: Step)
    requires Inv(parse, p) && Apply(parse, p, step).Some?
    ensures Inv(parse, Apply(parse, p, step).value)
  {
    hide Inv, CreateStep, ClaimStep, ResetStep, VerifyStep;
    if QuietStep(step) { QuietKeeps(parse, p, step); }
    else if step.BindSuperset? || step.BindExact? { BindStepKeeps(parse, p, step); }
    else if step.Create? { CreateStepKeeps(parse, p, step.t, step.now, step.env); }
    else if step.Claim? { ClaimStepKeeps(parse, p, step.t, step.job); }
    else if MarkStep(step) { MarkStepKeeps(parse, p, step); }
    else if step.Verify? { VerifyStepKeeps(parse, p, step.t, step.ok); }
    else if step.ResetEnv? { ResetStepKeeps(parse, p, step.t); }
    else { CrashKeeps(parse, p); }
  }

  lemma CrashKeeps(parse: Parser, p: Plant)
    requires Inv(parse, p)
    ensures Inv(parse, p.(threads := map[]))
  {
    hide RowsOk, JobsOk, AliasesOk;
  }

  lemma {:induction false} RunInv(parse: Parser, p: Plant, steps: seq<Step>)
    requires Inv(parse, p) && Exec(parse, p, steps).Some?
    ensures Inv(parse, Exec(parse, p, steps).value)
    decreases |steps|
  {
    hide Inv, Apply;
    if steps != [] {
      StepInv(parse, p, steps[0]);
      RunInv(parse, Apply(parse, p, steps[0]).value, steps[1..]);
    }
  }

  ghost predicate Reachable(parse: Parser, p: Plant) {
    exists steps :: Exec(parse, IDLE, steps) == Some(p)
  }

  lemma ReachableInv(parse: Parser, p: Plant)
    requires Reachable(parse, p)
    ensures Inv(parse, p)
  {
    var steps :| Exec(parse, IDLE, steps) == Some(p);
    assert Inv(parse, IDLE);
    hide Inv;
    RunInv(parse, IDLE, steps);
  }

  // ---------------------------------------------------------------- reuse is sound

  predicate SamePlatform(spec: Spec, key: EnvKey) {
    && spec.baseImage == key.baseImage && spec.pythonVersion == key.pythonVersion
    && spec.platform == key.platform && spec.policy == key.policy
  }

  predicate SameBase(spec: Spec, wanted: Spec) {
    && spec.baseImage == wanted.baseImage && spec.pythonVersion == wanted.pythonVersion
    && spec.platform == wanted.platform && spec.policy == wanted.policy
  }

  /**
   * A READY answer satisfies the request that got it: same base image, Python version,
   * platform and policy, every requested pin inside, an image that was verified for
   * exactly the packages of the row; bound exactly, it holds nothing but the request.
   */
  lemma ReadyAnswersSatisfy(parse: Parser, p: Plant, t: ThreadId)
    requires Reachable(parse, p) && t in p.threads && p.threads[t].pc.Answered? && p.threads[t].pc.answer.Some?
    requires p.threads[t].pc.answer.value.env.status.Ready?
    ensures var (key, answer) := (RequestOf(p.threads[t]), p.threads[t].pc.answer.value);
      && SamePlatform(answer.env.spec, key)
      && (p.threads[t].Resolve? ==> SameBase(answer.env.spec, p.threads[t].spec))
      && (forall name :: name in Wanted(parse, key) ==>
            name in answer.env.packages && answer.env.packages[name] == Wanted(parse, key)[name])
      && (answer.kind.Exact? ==> answer.env.packages == Wanted(parse, key))
      && answer.env.image.Some? && answer.e in p.verified
      && p.verified[answer.e] == (answer.env.image.value, answer.env.packages)
  {
    hide Reachable, Wanted;
    ReachableInv(parse, p);
    assert ThreadOk(parse, p, t, p.threads[t]);
    hide JobsOk, AliasesOk, ThreadsOk;
  }

  lemma StepGrows(parse: Parser, p: Plant, step: Step)
    requires Inv(parse, p) && Apply(parse, p, step).Some?
    ensures Grows(p.store, Apply(parse, p, step).value.store)
  {
    hide RowsOk, JobsOk, AliasesOk, VerifiedOk, Serves, Wanted, Grows;
    if QuietStep(step) || step.Verify? || step.Crash? { StoreStays(parse, p, step); }
    else {
      var th := p.threads[step.t];
      assert ThreadOk(parse, p, step.t, th);
      if step.BindSuperset? || step.BindExact? {
        BindKeeps(parse, p, RequestOf(th), th.pc.e, if step.BindSuperset? then Superset else Exact);
      }
      else if step.Create? { CreateKeeps(parse, p, th.spec, step.now, step.env); }
      else if step.Claim? { ClaimGrows(parse, p, step); }
      else if step.ResetEnv? { ResetGrows(parse, p, step); }
      else { MarkGrows(parse, p, step); }
    }
  }

  lemma GrowsItself(store: Store)
    ensures Grows(store, store)
  {
  }

  lemma StoreStays(parse: Parser, p: Plant, step: Step)
    requires (QuietStep(step) || step.Verify? || step.Crash?) && Apply(parse, p, step).Some?
    ensures Grows(p.store, Apply(parse, p, step).value.store)
  {
    hide Grows, Wanted, SmallestSuperset;
    GrowsItself(p.store);
  }

  lemma ClaimGrows(parse: Parser, p: Plant, step: Step)
    requires StoreOk(parse, p) && step.Claim? && Apply(parse, p, step).Some?
    ensures Grows(p.store, Apply(parse, p, step).value.store)
  {
    hide Grows, RowsOk, JobsOk, AliasesOk, VerifiedOk;
    if ClaimBuild(p.store, p.threads[step.t].pc.e, step.job).0 {
      ClaimKeeps(parse, p, p.threads[step.t].pc.e, step.job);
    }
    else { GrowsItself(p.store); }
  }

  lemma ResetGrows(parse: Parser, p: Plant, step: Step)
    requires StoreOk(parse, p) && step.ResetEnv? && Apply(parse, p, step).Some?
    ensures Grows(p.store, Apply(parse, p, step).value.store)
  {
    hide Grows, RowsOk, JobsOk, AliasesOk, VerifiedOk;
    if ResetFailed(p.store, p.threads[step.t].pc.e).0 { ResetKeeps(parse, p, p.threads[step.t].pc.e); }
    else { GrowsItself(p.store); }
  }

  lemma MarkGrows(parse: Parser, p: Plant, step: Step)
    requires Inv(parse, p) && MarkStep(step) && Apply(parse, p, step).Some?
    ensures Grows(p.store, Apply(parse, p, step).value.store)
  {
    hide Grows, RowsOk, JobsOk, AliasesOk, VerifiedOk, Serves, Wanted, ImageTaken;
    var (t, pc) := (step.t, p.threads[step.t].pc);
    assert ThreadOk(parse, p, t, p.threads[t]);
    if step.MarkReady? && ImageTaken(p.store, pc.e, pc.image) {
      GrowsItself(p.store);
    } else {
      MarkKeeps(parse, p, t, pc.e, pc.j, p.store.envs[pc.e].status,
                if step.MarkVerifying? then Verifying else if step.MarkReady? then Ready else Failed,
                if step.MarkReady? then Some(pc.image) else None);
    }
  }

  /** READY is absorbing and aliases never change, over any schedule with any number of crashes. */
  lemma {:induction false} ReadyForever(parse: Parser, p: Plant, steps: seq<Step>)
    requires Inv(parse, p) && Exec(parse, p, steps).Some?
    ensures Grows(p.store, Exec(parse, p, steps).value.store)
    decreases |steps|
  {
    hide Inv, Apply;
    if steps != [] {
      var p1 := Apply(parse, p, steps[0]).value;
      StepGrows(parse, p, steps[0]);
      StepInv(parse, p, steps[0]);
      ReadyForever(parse, p1, steps[1..]);
    }
  }

  /** Once a request is bound to a READY environment, every later lookup of it gives the very same answer. */
  lemma LookupsAgree(parse: Parser, p: Plant, steps: seq<Step>, key: EnvKey)
    requires Inv(parse, p) && Exec(parse, p, steps).Some?
    requires GetForRequest(p.store, key).Some? && GetForRequest(p.store, key).value.env.status.Ready?
    ensures GetForRequest(Exec(parse, p, steps).value.store, key) == GetForRequest(p.store, key)
  {
    hide Inv, Apply, Exec;
    ReadyForever(parse, p, steps);
  }

  /** The candidate a search binds has the fewest packages of all that would do. */
  lemma SearchIsMinimal(parse: Parser, p: Plant, t: ThreadId, found: EnvId, other: EnvId)
    requires Reachable(parse, p) && SearchStep(parse, p, t, Some(found)).Some?
    requires other in p.store.envs && p.store.envs[other].status.Ready?
    requires Serves(parse, RequestOf(p.threads[t]), p.store.envs[other])
    ensures found in p.store.envs && Serves(parse, RequestOf(p.threads[t]), p.store.envs[found])
    ensures |p.store.envs[found].packages| <= |p.store.envs[other].packages|
  {
    hide Reachable, Wanted;
    ReachableInv(parse, p);
    hide JobsOk, AliasesOk, VerifiedOk, ThreadsOk;
    assert Candidate(p.store, RequestOf(p.threads[t]), PackagesOf(parse, p.threads[t].spec), other);
  }

  // ---------------------------------------------------------------- builds are exclusive

  predicate Builds(pc: Pc) {
    pc.Making? || pc.Made? || pc.Checking? || pc.Passed? || pc.Failing?
  }

  /** A builder holds the environment's one live job and works from the environment's own spec. */
  lemma BuilderOwns(parse: Parser, p: Plant, t: ThreadId)
    requires ThreadsOk(parse, p) && t in p.threads && Builds(p.threads[t].pc)
    ensures var pc := p.threads[t].pc;
      && (Owns(p, t, pc.e, pc.j, Building) || Owns(p, t, pc.e, pc.j, Verifying))
      && (!pc.Failing? ==> p.store.envs[pc.e].spec == pc.spec)
  {
    hide Serves, AnswerOk, Tested;
    assert ThreadOk(parse, p, t, p.threads[t]);
  }

  /** Two threads never build the same environment, and what is built and verified is the environment's own spec. */
  lemma BuildsAreExclusive(parse: Parser, p: Plant, t: ThreadId, u: ThreadId)
    requires Reachable(parse, p) && t in p.threads && u in p.threads && Builds(p.threads[t].pc)
    requires Builds(p.threads[u].pc)
    requires p.threads[t].pc.e == p.threads[u].pc.e
    ensures t == u && p.threads[t].pc.e in p.store.envs
    ensures !p.threads[t].pc.Failing? ==> p.threads[t].pc.spec == p.store.envs[p.threads[t].pc.e].spec
  {
    hide Reachable, StoreOk, ThreadsOk;
    ReachableInv(parse, p);
    BuilderOwns(parse, p, t);
    BuilderOwns(parse, p, u);
  }

  function JobsOf(store: Store, e: EnvId): set<JobId> {
    set j | j in store.jobs && store.jobs[j].env == e && !store.jobs[j].status.Failed?
  }

  /**
   * An environment that is BUILDING, VERIFYING or READY has exactly one job that is not
   * FAILED, in that same status; any other environment has none. Only READY has an image.
   */
  lemma OneLiveJob(parse: Parser, p: Plant, e: EnvId)
    requires Reachable(parse, p) && e in p.store.envs
    ensures |JobsOf(p.store, e)| == if Active(p.store.envs[e].status) then 1 else 0
    ensures forall j :: j in JobsOf(p.store, e) ==> p.store.jobs[j].status == p.store.envs[e].status
    ensures p.store.envs[e].image.Some? <==> p.store.envs[e].status.Ready?
  {
    hide Reachable;
    ReachableInv(parse, p);
    hide AliasesOk, VerifiedOk, ThreadsOk, Wanted, KeyOf;
    if Active(p.store.envs[e].status) {
      assert JobsOf(p.store, e) == {p.current[e]};
    } else {
      assert JobsOf(p.store, e) == {};
    }
  }
}
