/**
 * Whole calls, start to end, on any state of the tables: what resolve and retry leave behind
 * and answer when the backend succeeds, and when it fails.
 */
module BuildRuns {
  import opened Prelude
  import opened BuildModel
  import opened BuildStore
  import opened BuildService
  import opened BuildTheorems
  import opened BuildHistory

  // ---------------------------------------------------------------- one step at a time

  /** Thread `t` is here, whatever the others do. */
  predicate At(p: Plant, t: ThreadId, pc: Pc) {
    t in p.threads && p.threads[t].pc == pc
  }

  /** The step can be taken, leads `t` there and leaves these tables; `t` still serves the same request. */
  ghost predicate Goes(parse: Parser, p: Plant, step: Step, t: ThreadId, pc: Pc, store: Store) {
    var next := Apply(parse, p, step);
    && t in p.threads && next.Some? && t in next.value.threads
    && next.value.threads[t] == p.threads[t].(pc := pc) && next.value.store == store
  }

  function WithEnv(store: Store, e: EnvId, status: Status, image: Option<Image>): Store
    requires e in store.envs
  {
    store.(envs := store.envs[e := store.envs[e].(status := status, image := image)])
  }

  function WithJob(store: Store, j: JobId, e: EnvId, status: Status): Store {
    store.(jobs := store.jobs[j := Job(e, status)])
  }

  /** Environment and job in this status. */
  function Stage(store: Store, e: EnvId, j: JobId, status: Status, image: Option<Image>): Store
    requires e in store.envs
  {
    WithJob(WithEnv(store, e, status, image), j, e, status)
  }

  predicate Unbuilt(store: Store, e: EnvId) {
    e in store.envs && store.envs[e].status == Pending && store.envs[e].image == None
  }

  /** A resolve starts exactly for a lock text that parses. */
  lemma StartGoes(parse: Parser, p: Plant, t: ThreadId, spec: Spec)
    requires t !in p.threads
    ensures var next := Apply(parse, p, StartResolve(t, spec));
      && (next.Some? <==> parse(spec.lock).Some?)
      && (next.Some? ==> next.value == p.(threads := p.threads[t := Resolve(spec, Looking)]))
  {
  }

  /** A search that finds something goes on to bind it, one that does not goes on to create. */
  lemma SearchGoes(parse: Parser, p: Plant, t: ThreadId, found: Option<EnvId>)
    requires At(p, t, Searching) && p.threads[t].Resolve?
    requires SmallestSuperset(p.store, KeyOf(p.threads[t].spec), PackagesOf(parse, p.threads[t].spec), found)
    ensures Goes(parse, p, Search(t, found), t,
                 match found case Some(e) => BindingSuperset(e) case None => Creating, p.store)
  {
    hide SmallestSuperset, PackagesOf;
  }

  /** A request that is bound already is answered with its environment as it is, and built if that is PENDING. */
  lemma LookGoes(parse: Parser, p: Plant, t: ThreadId, reuse: bool)
    requires At(p, t, Looking) && p.threads[t].Resolve?
    requires var key := KeyOf(p.threads[t].spec); key in p.store.aliases ==> p.store.aliases[key].env in p.store.envs
    ensures var (key, spec, aliases) := (KeyOf(p.threads[t].spec), p.threads[t].spec, p.store.aliases);
      if key !in aliases then Goes(parse, p, Look(t, reuse), t, if reuse then Searching else Creating, p.store)
      else
        var (e, env) := (aliases[key].env, p.store.envs[aliases[key].env]);
        if env.status == Pending then Goes(parse, p, Look(t, reuse), t, Claiming(e, spec), p.store)
        else Goes(parse, p, Look(t, reuse), t, Answered(Some(Answer(e, env, aliases[key].kind))), p.store)
  {
  }

  lemma CreateGoes(parse: Parser, p: Plant, t: ThreadId, now: int, uuid: EnvId)
    requires At(p, t, Creating) && p.threads[t].Resolve? && uuid !in p.store.envs
    requires KeyOf(p.threads[t].spec) !in p.store.index
    ensures var spec := p.threads[t].spec;
      var row := Env(KeyOf(spec), spec, PackagesOf(parse, spec), |PackagesOf(parse, spec)|, None, Pending, now);
      Goes(parse, p, Create(t, now, uuid), t, BindingExact(uuid, true),
           p.store.(envs := p.store.envs[uuid := row], index := p.store.index[KeyOf(spec) := uuid]))
  {
  }

  /** A row that is there already is taken as it is, and built only if it is PENDING. */
  lemma FoundGoes(parse: Parser, p: Plant, t: ThreadId, now: int, uuid: EnvId, e: EnvId)
    requires At(p, t, Creating) && p.threads[t].Resolve? && uuid !in p.store.envs && e in p.store.envs
    requires KeyOf(p.threads[t].spec) in p.store.index && p.store.index[KeyOf(p.threads[t].spec)] == e
    ensures Goes(parse, p, Create(t, now, uuid), t, BindingExact(e, p.store.envs[e].status == Pending), p.store)
  {
  }

  lemma BindGoes(parse: Parser, p: Plant, t: ThreadId, e: EnvId, pending: bool)
    requires At(p, t, BindingExact(e, pending)) && p.threads[t].Resolve?
    requires KeyOf(p.threads[t].spec) !in p.store.aliases
    ensures var key := KeyOf(p.threads[t].spec);
      Goes(parse, p, BindExact(t), t, if pending then Claiming(e, p.threads[t].spec) else Rereading,
           p.store.(aliases := p.store.aliases[key := Alias(e, Exact)]))
  {
  }

  lemma SupersetGoes(parse: Parser, p: Plant, t: ThreadId, e: EnvId)
    requires At(p, t, BindingSuperset(e)) && RequestOf(p.threads[t]) !in p.store.aliases
    ensures Goes(parse, p, BindSuperset(t), t, Rereading,
                 p.store.(aliases := p.store.aliases[RequestOf(p.threads[t]) := Alias(e, Superset)]))
  {
  }

  lemma ClaimGoes(parse: Parser, p: Plant, t: ThreadId, e: EnvId, spec: Spec, j: JobId)
    requires At(p, t, Claiming(e, spec)) && Unbuilt(p.store, e) && j !in p.store.jobs
    ensures Goes(parse, p, Claim(t, j), t, Making(e, j, spec), Stage(p.store, e, j, Building, None))
  {
  }

  /** Whoever comes second builds nothing. */
  lemma LateClaimGoes(parse: Parser, p: Plant, t: ThreadId, e: EnvId, spec: Spec, j: JobId)
    requires At(p, t, Claiming(e, spec)) && e in p.store.envs && p.store.envs[e].status != Pending
    requires j !in p.store.jobs
    ensures Goes(parse, p, Claim(t, j), t, Rereading, p.store)
  {
  }

  lemma MadeGoes(parse: Parser, p: Plant, t: ThreadId, e: EnvId, j: JobId, spec: Spec, image: Image)
    requires At(p, t, Making(e, j, spec))
    ensures Goes(parse, p, Make(t, Some(image)), t, Made(e, j, spec, image), p.store)
  {
  }

  lemma CheckGoes(parse: Parser, p: Plant, t: ThreadId, e: EnvId, j: JobId, spec: Spec, image: Image)
    requires At(p, t, Made(e, j, spec, image)) && e in p.store.envs && p.store.envs[e].image == None
    requires j in p.store.jobs && p.store.jobs[j].env == e
    ensures Goes(parse, p, MarkVerifying(t), t, Checking(e, j, spec, image), Stage(p.store, e, j, Verifying, None))
  {
  }

  lemma PassGoes(parse: Parser, p: Plant, t: ThreadId, e: EnvId, j: JobId, spec: Spec, image: Image)
    requires At(p, t, Checking(e, j, spec, image))
    ensures Goes(parse, p, Verify(t, true), t, Passed(e, j, spec, image), p.store)
  {
  }

  lemma ReadyGoes(parse: Parser, p: Plant, t: ThreadId, e: EnvId, j: JobId, spec: Spec, image: Image)
    requires At(p, t, Passed(e, j, spec, image)) && e in p.store.envs
    requires j in p.store.jobs && p.store.jobs[j].env == e
    requires forall f :: f in p.store.envs ==> p.store.envs[f].image != Some(image)
    ensures Goes(parse, p, MarkReady(t), t, Rereading, Stage(p.store, e, j, Ready, Some(image)))
  {
  }

  lemma RereadGoes(parse: Parser, p: Plant, t: ThreadId, e: EnvId)
    requires At(p, t, Rereading) && RequestOf(p.threads[t]) in p.store.aliases && e in p.store.envs
    requires p.store.aliases[RequestOf(p.threads[t])].env == e
    ensures var kind := p.store.aliases[RequestOf(p.threads[t])].kind;
      Goes(parse, p, Reread(t), t, Answered(Some(Answer(e, p.store.envs[e], kind))), p.store)
  {
  }

  /** Only a request bound to a FAILED environment is retried. */
  lemma RetryGoes(parse: Parser, p: Plant, t: ThreadId)
    requires At(p, t, RetryLooking) && p.threads[t].Retry?
    requires var key := p.threads[t].request; key in p.store.aliases ==> p.store.aliases[key].env in p.store.envs
    ensures var (key, aliases) := (p.threads[t].request, p.store.aliases);
      var failed := key in aliases && p.store.envs[aliases[key].env].status == Failed;
      Goes(parse, p, RetryLook(t), t, if failed then Resetting(aliases[key].env) else Raised, p.store)
  {
  }

  lemma ResetGoes(parse: Parser, p: Plant, t: ThreadId, e: EnvId)
    requires At(p, t, Resetting(e)) && e in p.store.envs && p.store.envs[e].status == Failed
    ensures Goes(parse, p, ResetEnv(t), t, Claiming(e, p.store.envs[e].spec), WithEnv(p.store, e, Pending, None))
  {
  }

  // ---------------------------------------------------------------- a build

  ghost predicate Runs(parse: Parser, p: Plant, steps: seq<Step>, t: ThreadId, pc: Pc, store: Store) {
    var end := Exec(parse, p, steps);
    && t in p.threads && end.Some? && t in end.value.threads
    && end.value.threads[t] == p.threads[t].(pc := pc) && end.value.store == store
  }

  lemma RunsOn(parse: Parser, p: Plant, steps: seq<Step>, t: ThreadId, pc: Pc, store: Store, step: Step, pc': Pc,
               store': Store)
    requires Runs(parse, p, steps, t, pc, store)
    requires Goes(parse, Exec(parse, p, steps).value, step, t, pc', store')
    ensures Runs(parse, p, steps + [step], t, pc', store')
  {
    hide Apply, Exec;
    ExecLast(parse, p, steps, step);
  }

  lemma RunsNothing(parse: Parser, p: Plant, t: ThreadId)
    requires t in p.threads
    ensures Runs(parse, p, [], t, p.threads[t].pc, p.store)
  {
  }

  /** The schedule of a build that succeeds, with the closing lookup. */
  function BuildSteps(t: ThreadId, j: JobId, image: Image): seq<Step> {
    [Claim(t, j), Make(t, Some(image)), MarkVerifying(t), Verify(t, true), MarkReady(t), Reread(t)]
  }

  predicate CanBuild(p: Plant, t: ThreadId, e: EnvId, spec: Spec, j: JobId, image: Image) {
    && At(p, t, Claiming(e, spec)) && Unbuilt(p.store, e) && j !in p.store.jobs
    && (forall f :: f in p.store.envs ==> p.store.envs[f].image != Some(image))
    && RequestOf(p.threads[t]) in p.store.aliases && p.store.aliases[RequestOf(p.threads[t])].env == e
  }

  lemma BuildClaims(parse: Parser, p: Plant, t: ThreadId, e: EnvId, spec: Spec, j: JobId, image: Image)
    requires CanBuild(p, t, e, spec, j, image)
    ensures Runs(parse, p, BuildSteps(t, j, image)[..1], t, Making(e, j, spec), Stage(p.store, e, j, Building, None))
  {
    hide Apply, Exec, Goes, Runs;
    var steps := BuildSteps(t, j, image);
    assert steps[..1] == [] + [steps[0]];
    RunsNothing(parse, p, t);
    NothingRun(parse, p);
    ClaimGoes(parse, p, t, e, spec, j);
    RunsOn(parse, p, [], t, p.threads[t].pc, p.store, steps[0], Making(e, j, spec),
           Stage(p.store, e, j, Building, None));
  }

  lemma BuildStarts(parse: Parser, p: Plant, t: ThreadId, e: EnvId, spec: Spec, j: JobId, image: Image)
    requires CanBuild(p, t, e, spec, j, image)
    ensures Runs(parse, p, BuildSteps(t, j, image)[..3], t, Checking(e, j, spec, image),
                 Stage(p.store, e, j, Verifying, None))
  {
    hide Apply, Exec, Goes, Runs;
    var (steps, building) := (BuildSteps(t, j, image), Stage(p.store, e, j, Building, None));
    assert steps[..2] == steps[..1] + [steps[1]] && steps[..3] == steps[..2] + [steps[2]];
    BuildClaims(parse, p, t, e, spec, j, image);
    RunsAt(parse, p, steps[..1], t, Making(e, j, spec), building);
    MadeGoes(parse, Exec(parse, p, steps[..1]).value, t, e, j, spec, image);
    RunsOn(parse, p, steps[..1], t, Making(e, j, spec), building, steps[1], Made(e, j, spec, image), building);
    RunsAt(parse, p, steps[..2], t, Made(e, j, spec, image), building);
    CheckGoes(parse, Exec(parse, p, steps[..2]).value, t, e, j, spec, image);
    Restaged(p.store, e, j, Building, None, Verifying, None);
    RunsOn(parse, p, steps[..2], t, Made(e, j, spec, image), building, steps[2], Checking(e, j, spec, image),
           Stage(p.store, e, j, Verifying, None));
  }

  lemma NothingRun(parse: Parser, p: Plant)
    ensures Exec(parse, p, []) == Some(p)
  {
  }

  lemma RunsAt(parse: Parser, p: Plant, steps: seq<Step>, t: ThreadId, pc: Pc, store: Store)
    requires Runs(parse, p, steps, t, pc, store)
    ensures Exec(parse, p, steps).Some?
    ensures var end := Exec(parse, p, steps).value;
      At(end, t, pc) && end.store == store && end.threads[t] == p.threads[t].(pc := pc)
  {
    hide Exec;
  }

  lemma Restaged(store: Store, e: EnvId, j: JobId, status: Status, image: Option<Image>, status': Status,
                 image': Option<Image>)
    requires e in store.envs
    ensures Stage(Stage(store, e, j, status, image), e, j, status', image') == Stage(store, e, j, status', image')
  {
  }

  lemma BuildPasses(parse: Parser, p: Plant, t: ThreadId, e: EnvId, spec: Spec, j: JobId, image: Image)
    requires CanBuild(p, t, e, spec, j, image)
    ensures Runs(parse, p, BuildSteps(t, j, image)[..4], t, Passed(e, j, spec, image),
                 Stage(p.store, e, j, Verifying, None))
  {
    hide Apply, Exec, Goes, Runs;
    var (steps, checking) := (BuildSteps(t, j, image), Stage(p.store, e, j, Verifying, None));
    assert steps[..4] == steps[..3] + [steps[3]];
    BuildStarts(parse, p, t, e, spec, j, image);
    hide Stage;
    RunsAt(parse, p, steps[..3], t, Checking(e, j, spec, image), checking);
    PassGoes(parse, Exec(parse, p, steps[..3]).value, t, e, j, spec, image);
    RunsOn(parse, p, steps[..3], t, Checking(e, j, spec, image), checking, steps[3], Passed(e, j, spec, image),
           checking);
  }

  lemma BuildIsReady(parse: Parser, p: Plant, t: ThreadId, e: EnvId, spec: Spec, j: JobId, image: Image)
    requires CanBuild(p, t, e, spec, j, image)
    ensures Runs(parse, p, BuildSteps(t, j, image)[..5], t, Rereading, Stage(p.store, e, j, Ready, Some(image)))
  {
    hide Apply, Exec, Goes, Runs;
    var (steps, checking) := (BuildSteps(t, j, image), Stage(p.store, e, j, Verifying, None));
    assert steps[..5] == steps[..4] + [steps[4]];
    BuildPasses(parse, p, t, e, spec, j, image);
    RunsAt(parse, p, steps[..4], t, Passed(e, j, spec, image), checking);
    ReadyGoes(parse, Exec(parse, p, steps[..4]).value, t, e, j, spec, image);
    Restaged(p.store, e, j, Verifying, None, Ready, Some(image));
    RunsOn(parse, p, steps[..4], t, Passed(e, j, spec, image), checking, steps[4], Rereading,
           Stage(p.store, e, j, Ready, Some(image)));
  }

  /** A build that succeeds turns its environment READY with the new image, and that is the answer. */
  lemma BuildSucceeds(parse: Parser, p: Plant, t: ThreadId, e: EnvId, spec: Spec, j: JobId, image: Image)
    requires CanBuild(p, t, e, spec, j, image)
    ensures var store := Stage(p.store, e, j, Ready, Some(image));
      var kind := p.store.aliases[RequestOf(p.threads[t])].kind;
      Runs(parse, p, BuildSteps(t, j, image), t, Answered(Some(Answer(e, store.envs[e], kind))), store)
  {
    hide Apply, Exec, Goes, Runs;
    var steps := BuildSteps(t, j, image);
    assert steps[..|steps| - 1] == steps[..5];
    BuildIsReady(parse, p, t, e, spec, j, image);
    RereadLast(parse, p, steps, t, e, Stage(p.store, e, j, Ready, Some(image)));
  }

  /** The closing lookup answers with the environment as it then is. */
  lemma RereadLast(parse: Parser, p: Plant, steps: seq<Step>, t: ThreadId, e: EnvId, store: Store)
    requires steps != [] && steps[|steps| - 1] == Reread(t)
    requires Runs(parse, p, steps[..|steps| - 1], t, Rereading, store) && e in store.envs && t in p.threads
    requires RequestOf(p.threads[t]) in store.aliases && store.aliases[RequestOf(p.threads[t])].env == e
    ensures var kind := store.aliases[RequestOf(p.threads[t])].kind;
      Runs(parse, p, steps, t, Answered(Some(Answer(e, store.envs[e], kind))), store)
  {
    hide Apply, Exec, Goes, Runs;
    var before := steps[..|steps| - 1];
    assert steps == before + [steps[|steps| - 1]];
    RunsAt(parse, p, before, t, Rereading, store);
    RereadGoes(parse, Exec(parse, p, before).value, t, e);
    var kind := store.aliases[RequestOf(p.threads[t])].kind;
    RunsOn(parse, p, before, t, Rereading, store, Reread(t), Answered(Some(Answer(e, store.envs[e], kind))), store);
  }

  /** A verification that fails turns it FAILED, and that is the answer. */
  function RejectSteps(t: ThreadId, j: JobId, image: Image): seq<Step> {
    [Claim(t, j), Make(t, Some(image)), MarkVerifying(t), Verify(t, false), MarkFailed(t), Reread(t)]
  }

  lemma RejectGoes(parse: Parser, p: Plant, t: ThreadId, e: EnvId, j: JobId, spec: Spec, image: Image)
    requires At(p, t, Checking(e, j, spec, image))
    ensures Goes(parse, p, Verify(t, false), t, Failing(e, j), p.store)
  {
  }

  lemma FailedGoes(parse: Parser, p: Plant, t: ThreadId, e: EnvId, j: JobId)
    requires At(p, t, Failing(e, j)) && e in p.store.envs && p.store.envs[e].image == None
    requires j in p.store.jobs && p.store.jobs[j].env == e
    ensures Goes(parse, p, MarkFailed(t), t, Rereading, Stage(p.store, e, j, Failed, None))
  {
  }

  lemma BuildFails(parse: Parser, p: Plant, t: ThreadId, e: EnvId, spec: Spec, j: JobId, image: Image)
    requires CanBuild(p, t, e, spec, j, image)
    ensures var store := Stage(p.store, e, j, Failed, None);
      var kind := p.store.aliases[RequestOf(p.threads[t])].kind;
      Runs(parse, p, RejectSteps(t, j, image), t, Answered(Some(Answer(e, store.envs[e], kind))), store)
  {
    hide Apply, Exec, Goes, Runs;
    var steps := RejectSteps(t, j, image);
    assert steps[..3] == BuildSteps(t, j, image)[..3];
    assert steps[..4] == steps[..3] + [steps[3]] && steps[..5] == steps[..4] + [steps[4]];
    var (checking, store) := (Stage(p.store, e, j, Verifying, None), Stage(p.store, e, j, Failed, None));
    BuildStarts(parse, p, t, e, spec, j, image);
    RunsAt(parse, p, steps[..3], t, Checking(e, j, spec, image), checking);
    RejectGoes(parse, Exec(parse, p, steps[..3]).value, t, e, j, spec, image);
    RunsOn(parse, p, steps[..3], t, Checking(e, j, spec, image), checking, steps[3], Failing(e, j), checking);
    RunsAt(parse, p, steps[..4], t, Failing(e, j), checking);
    FailedGoes(parse, Exec(parse, p, steps[..4]).value, t, e, j);
    Restaged(p.store, e, j, Verifying, None, Failed, None);
    RunsOn(parse, p, steps[..4], t, Failing(e, j), checking, steps[4], Rereading, store);
    RereadLast(parse, p, steps, t, e, store);
  }

  // ---------------------------------------------------------------- resolve and retry

  /** A schedule after a schedule. */
  lemma {:induction false} ExecJoin(parse: Parser, p: Plant, first: seq<Step>, rest: seq<Step>)
    ensures var middle := Exec(parse, p, first);
      Exec(parse, p, first + rest) == if middle.None? then None else Exec(parse, middle.value, rest)
    decreases |first|
  {
    hide Apply;
    if first == [] {
      assert first + rest == rest;
    } else {
      assert (first + rest)[1..] == first[1..] + rest;
      var next := Apply(parse, p, first[0]);
      if next.Some? { ExecJoin(parse, next.value, first[1..], rest); }
    }
  }

  lemma RunsJoin(parse: Parser, p: Plant, first: seq<Step>, rest: seq<Step>, t: ThreadId, pc: Pc, store: Store, pc': Pc,
                 store': Store)
    requires Runs(parse, p, first, t, pc, store) && Runs(parse, Exec(parse, p, first).value, rest, t, pc', store')
    ensures Runs(parse, p, first + rest, t, pc', store')
  {
    hide Exec;
    ExecJoin(parse, p, first, rest);
  }

  /** Nothing is known of the request, and the new identifiers are unused. */
  predicate Unknown(store: Store, key: EnvKey, e: EnvId, j: JobId, image: Image) {
    && key !in store.aliases && key !in store.index && e !in store.envs && j !in store.jobs
    && forall f :: f in store.envs ==> store.envs[f].image != Some(image)
  }

  function NewRow(parse: Parser, spec: Spec, now: int): Env {
    Env(KeyOf(spec), spec, PackagesOf(parse, spec), |PackagesOf(parse, spec)|, None, Pending, now)
  }

  /**
   * A resolve of something new, undisturbed and with a backend that succeeds: afterwards there is
   * one more environment, READY, of the request's own spec and packages, with the new image, the
   * request is bound to it as exact, one job has done it, and the answer is that row.
   */
  lemma ResolveBuilds(parse: Parser, p: Plant, t: ThreadId, e: EnvId, j: JobId, image: Image, now: int)
    requires t in p.threads && p.threads[t].Resolve? && p.threads[t].pc == Looking
    requires Unknown(p.store, KeyOf(p.threads[t].spec), e, j, image)
    ensures var (key, row) := (KeyOf(p.threads[t].spec), NewRow(parse, p.threads[t].spec, now));
      var store := Store(p.store.envs[e := row.(status := Ready, image := Some(image))], p.store.index[key := e],
        p.store.aliases[key := Alias(e, Exact)], p.store.jobs[j := Job(e, Ready)]);
      Runs(parse, p, [Look(t, false), Create(t, now, e), BindExact(t)] + BuildSteps(t, j, image), t,
           Answered(Some(Answer(e, store.envs[e], Exact))), store)
  {
    hide Apply, Exec, Goes, Runs, KeyOf, PackagesOf;
    var (key, spec, row) := (KeyOf(p.threads[t].spec), p.threads[t].spec, NewRow(parse, p.threads[t].spec, now));
    var first := [Look(t, false), Create(t, now, e), BindExact(t)];
    var created := p.store.(envs := p.store.envs[e := row], index := p.store.index[key := e]);
    var bound := created.(aliases := created.aliases[key := Alias(e, Exact)]);
    ResolveStarts(parse, p, t, e, now, created, bound);
    RunsAt(parse, p, first, t, Claiming(e, spec), bound);
    var p' := Exec(parse, p, first).value;
    assert RequestOf(p'.threads[t]) == key;
    BuildSucceeds(parse, p', t, e, spec, j, image);
    var store := Stage(bound, e, j, Ready, Some(image));
    RunsJoin(parse, p, first, BuildSteps(t, j, image), t, Claiming(e, spec), bound,
             Answered(Some(Answer(e, store.envs[e], Exact))), store);
    assert store.envs == p.store.envs[e := row.(status := Ready, image := Some(image))];
  }

  lemma ResolveStarts(parse: Parser, p: Plant, t: ThreadId, e: EnvId, now: int, created: Store, bound: Store)
    requires t in p.threads && p.threads[t].Resolve? && p.threads[t].pc == Looking
    requires var key := KeyOf(p.threads[t].spec);
      && key !in p.store.aliases && key !in p.store.index && e !in p.store.envs
      && created == p.store.(envs := p.store.envs[e := NewRow(parse, p.threads[t].spec, now)],
                             index := p.store.index[key := e])
      && bound == created.(aliases := created.aliases[key := Alias(e, Exact)])
    ensures Runs(parse, p, [Look(t, false), Create(t, now, e), BindExact(t)], t, Claiming(e, p.threads[t].spec), bound)
  {
    hide Apply, Exec, Goes, Runs, KeyOf, PackagesOf;
    var spec := p.threads[t].spec;
    var steps := [Look(t, false), Create(t, now, e), BindExact(t)];
    assert steps[..1] == [] + [steps[0]] && steps[..2] == steps[..1] + [steps[1]] && steps == steps[..2] + [steps[2]];
    RunsNothing(parse, p, t);
    NothingRun(parse, p);
    LookGoes(parse, p, t, false);
    RunsOn(parse, p, [], t, Looking, p.store, steps[0], Creating, p.store);
    RunsAt(parse, p, steps[..1], t, Creating, p.store);
    CreateGoes(parse, Exec(parse, p, steps[..1]).value, t, now, e);
    RunsOn(parse, p, steps[..1], t, Creating, p.store, steps[1], BindingExact(e, true), created);
    RunsAt(parse, p, steps[..2], t, BindingExact(e, true), created);
    BindGoes(parse, Exec(parse, p, steps[..2]).value, t, e, true);
    RunsOn(parse, p, steps[..2], t, BindingExact(e, true), created, steps[2], Claiming(e, spec), bound);
  }

  /** A retry of a FAILED environment builds that environment's own spec again, whatever request led to it. */
  lemma RetryBuilds(parse: Parser, p: Plant, t: ThreadId, e: EnvId, j: JobId, image: Image)
    requires t in p.threads && p.threads[t].Retry? && p.threads[t].pc == RetryLooking
    requires var key := p.threads[t].request; key in p.store.aliases && p.store.aliases[key].env == e
    requires e in p.store.envs && p.store.envs[e].status == Failed && j !in p.store.jobs
    requires forall f :: f in p.store.envs ==> p.store.envs[f].image != Some(image)
    ensures var (store, kind) := (Stage(p.store, e, j, Ready, Some(image)), p.store.aliases[p.threads[t].request].kind);
      Runs(parse, p, [RetryLook(t), ResetEnv(t)] + BuildSteps(t, j, image), t,
           Answered(Some(Answer(e, store.envs[e], kind))), store)
  {
    hide Apply, Exec, Goes, Runs;
    var (spec, steps) := (p.store.envs[e].spec, [RetryLook(t), ResetEnv(t)]);
    assert steps[..1] == [] + [steps[0]] && steps == steps[..1] + [steps[1]];
    var pending := WithEnv(p.store, e, Pending, None);
    RunsNothing(parse, p, t);
    NothingRun(parse, p);
    RetryGoes(parse, p, t);
    RunsOn(parse, p, [], t, RetryLooking, p.store, steps[0], Resetting(e), p.store);
    RunsAt(parse, p, steps[..1], t, Resetting(e), p.store);
    ResetGoes(parse, Exec(parse, p, steps[..1]).value, t, e);
    RunsOn(parse, p, steps[..1], t, Resetting(e), p.store, steps[1], Claiming(e, spec), pending);
    RunsAt(parse, p, steps, t, Claiming(e, spec), pending);
    BuildSucceeds(parse, Exec(parse, p, steps).value, t, e, spec, j, image);
    var store := Stage(p.store, e, j, Ready, Some(image));
    assert Stage(pending, e, j, Ready, Some(image)) == store;
    RunsJoin(parse, p, steps, BuildSteps(t, j, image), t, Claiming(e, spec), pending,
             Answered(Some(Answer(e, store.envs[e], p.store.aliases[p.threads[t].request].kind))), store);
  }
}
