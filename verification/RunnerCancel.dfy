/**
 * Which invocation a cancel hits. With distinct invocation ids an active entry belongs to one
 * invoke, whose own worker it names for as long as that invoke holds one; after that the
 * entry outlives the worker's return, and another invocation may hold it.
 */
module RunnerCancel {
  import opened Prelude
  import opened RunnerModel
  import opened RunnerState
  import opened WorkerPool
  import opened Runner
  import opened RunnerCustody
  import opened RunnerLedger
  import opened RunnerTheorems
  import opened RunnerProgress
  import opened RunnerDisposal
  import Quota

  /** No two invokes since the last restart share an invocation id. */
  ghost predicate Distinct(threads: map<ThreadId, Thread>) {
    forall t, u :: t in threads && u in threads && SameInvocation(threads[t], threads[u]) ==> t == u
  }

  predicate SameInvocation(a: Thread, b: Thread) {
    a.Invoke? && b.Invoke? && a.req.invocation == b.req.invocation
  }

  /** From the registration of `w` on: with the worker, or on the way out without it. */
  predicate Registered(pc: Pc, w: WorkerId) {
    || ((pc.Executing? || pc.Computed? || pc.Persisted? || pc.Keeping?) && pc.w == w)
    || ((pc.Dooming? || pc.Destroying? || pc.Deleting?) && Retires(pc.next) && pc.w == w)
    || LetGo(pc)
  }

  /** Past the return or the retirement of the worker, and not yet out of the active map. */
  predicate LetGo(pc: Pc) {
    pc.Abandoning? || pc.Unwinding?
  }

  /** The invoke whose registration the entry is. */
  predicate Owner(th: Thread, i: InvocationId, entry: ActiveRun) {
    && th.Invoke? && th.req.invocation == i && Registered(th.pc, entry.w)
    && entry.tenant == th.req.key.tenant && entry.lease == th.req.lease
  }

  ghost predicate Owned(threads: map<ThreadId, Thread>, i: InvocationId, entry: ActiveRun) {
    exists t :: t in threads && Owner(threads[t], i, entry)
  }

  ghost predicate EntriesOk(s: System) {
    forall i :: i in s.active ==> Owned(s.threads, i, s.active[i])
  }

  // ---------------------------------------------------------------- every step

  predicate MapStep(step: Step) {
    step.Register? || step.Unwind? || step.Cancel?
  }

  /** An entry afterwards was there before, or is the registration this very step made. */
  ghost predicate Enters(s: System, s': System, t: ThreadId) {
    && t in s'.threads
    && forall i :: i in s'.active ==>
         || (i in s.active && s'.active[i] == s.active[i])
         || Owner(s'.threads[t], i, s'.active[i])
  }

  lemma MapEnters(c: Config, s: System, step: Step)
    requires MapStep(step) && Apply(c, s, step).Some?
    ensures Enters(s, Apply(c, s, step).value, step.t)
    ensures step.Unwind? ==>
      s.threads[step.t].Invoke? && s.threads[step.t].req.invocation !in Apply(c, s, step).value.active
  {
  }

  lemma QuietMap(c: Config, s: System, step: Step)
    requires HasThread(step) && !MapStep(step) && Apply(c, s, step).Some?
    ensures Apply(c, s, step).value.active == s.active
  {
    hide BeginLedger, FinishLedger, Scan, AfterDrain, AfterSweep, AfterUse, AfterRetiring, SweepOf;
  }

  lemma StepEnters(c: Config, s: System, step: Step)
    requires HasThread(step) && Apply(c, s, step).Some? && step.t in Apply(c, s, step).value.threads
    ensures Enters(s, Apply(c, s, step).value, step.t)
  {
    hide Apply, Owner;
    if MapStep(step) { MapEnters(c, s, step); } else { QuietMap(c, s, step); }
  }

  lemma RegisteredAfterRetiring(next: Then, raised: bool, w: WorkerId)
    requires Retires(next)
    ensures Registered(AfterRetiring(next, raised), w)
  {
  }

  predicate UseOrClose(step: Step) {
    step.Execute? || step.FinishRun? || step.FinishRaises? || step.Retire? || step.Return?
  }

  lemma UseRegistered(c: Config, s: System, step: Step, w: WorkerId)
    requires UseOrClose(step) && Apply(c, s, step).Some? && step.t in s.threads && Registered(s.threads[step.t].pc, w)
    ensures var s' := Apply(c, s, step).value; step.t in s'.threads && Registered(s'.threads[step.t].pc, w)
  {
    hide FinishLedger, KeepsSandbox;
  }

  lemma RetireRegistered(c: Config, s: System, step: Step, w: WorkerId)
    requires RetireStepOf(step) && Apply(c, s, step).Some? && step.t in s.threads
    requires Registered(s.threads[step.t].pc, w)
    ensures var s' := Apply(c, s, step).value; step.t in s'.threads && Registered(s'.threads[step.t].pc, w)
  {
    hide AfterRetiring, Dropped, Quota.Release;
    RegisteredAfterRetiring(s.threads[step.t].pc.next, step.ReturnToken? && step.raised, w);
  }

  lemma AbandonRegistered(c: Config, s: System, step: Step, w: WorkerId)
    requires (step.AbandonRun? || step.AbandonRaises?) && Apply(c, s, step).Some? && step.t in s.threads
    ensures var s' := Apply(c, s, step).value; step.t in s'.threads && Registered(s'.threads[step.t].pc, w)
  {
    hide Abandon;
  }

  lemma EarlyIsUnregistered(c: Config, s: System, step: Step, w: WorkerId)
    requires HasThread(step) && !UseOrClose(step) && !RetireStepOf(step)
    requires !step.AbandonRun? && !step.AbandonRaises? && !step.Unwind?
    requires Apply(c, s, step).Some? && step.t in s.threads
    ensures !Registered(s.threads[step.t].pc, w)
  {
    hide BeginLedger, Scan, AfterDrain, AfterSweep, SweepOf;
  }

  /** Own steps keep an invoke registered until it unwinds. */
  lemma StaysRegistered(c: Config, s: System, step: Step, w: WorkerId)
    requires HasThread(step) && !step.Unwind? && Apply(c, s, step).Some?
    requires step.t in s.threads && Registered(s.threads[step.t].pc, w)
    ensures var s' := Apply(c, s, step).value; step.t in s'.threads && Registered(s'.threads[step.t].pc, w)
  {
    hide Apply, Registered;
    if UseOrClose(step) { UseRegistered(c, s, step, w); }
    else if RetireStepOf(step) { RetireRegistered(c, s, step, w); }
    else if step.AbandonRun? || step.AbandonRaises? { AbandonRegistered(c, s, step, w); }
    else { EarlyIsUnregistered(c, s, step, w); }
  }

  lemma StepMovesOnly(c: Config, s: System, step: Step)
    requires HasThread(step) && Apply(c, s, step).Some?
    ensures MovesOnly(s, Apply(c, s, step).value, step.t)
  {
    if StartsThread(step) {
      hide SweepOf, SweepFloor;
    } else {
      hide Apply, Remaining, Closer, Shaped;
      OwnStepAdvances(c, s, step);
    }
  }

  lemma DistinctBefore(s: System, s': System, t: ThreadId)
    requires MovesOnly(s, s', t) && Distinct(s'.threads)
    ensures Distinct(s.threads)
  {
    forall u, v | u in s.threads && v in s.threads && SameInvocation(s.threads[u], s.threads[v]) ensures u == v {
      assert SameInvocation(s'.threads[u], s'.threads[v]);
    }
  }

  lemma EntryKept(c: Config, s: System, step: Step, i: InvocationId)
    requires HasThread(step) && Apply(c, s, step).Some? && EntriesOk(s)
    requires MovesOnly(s, Apply(c, s, step).value, step.t) && Distinct(Apply(c, s, step).value.threads)
    requires i in s.active && i in Apply(c, s, step).value.active
    requires Apply(c, s, step).value.active[i] == s.active[i]
    ensures Owned(Apply(c, s, step).value.threads, i, s.active[i])
  {
    hide Apply, Registered, Enters;
    var s' := Apply(c, s, step).value;
    assert Owned(s.threads, i, s.active[i]);
    var t :| t in s.threads && Owner(s.threads[t], i, s.active[i]);
    if t == step.t {
      if step.Unwind? { MapEnters(c, s, step); } else { StaysRegistered(c, s, step, s.active[i].w); }
    }
    assert Owner(s'.threads[t], i, s.active[i]);
  }

  lemma StepEntries(c: Config, s: System, step: Step)
    requires Apply(c, s, step).Some? && (Distinct(s.threads) ==> EntriesOk(s))
    requires Distinct(Apply(c, s, step).value.threads)
    ensures EntriesOk(Apply(c, s, step).value)
  {
    hide Owner, Distinct, MovesOnly, Owned;
    var s' := Apply(c, s, step).value;
    if HasThread(step) {
      hide Apply;
      StepMovesOnly(c, s, step);
      DistinctBefore(s, s', step.t);
      MovedIsThere(s, s', step.t);
      StepEnters(c, s, step);
      forall i | i in s'.active ensures Owned(s'.threads, i, s'.active[i]) {
        if i in s.active && s'.active[i] == s.active[i] {
          EntryKept(c, s, step, i);
        } else {
          MoverOwns(s'.threads, step.t, i, s'.active[i]);
        }
      }
    } else if !step.Restart? {
      MaintenanceAside(c, s, step);
    }
  }

  lemma MovedIsThere(s: System, s': System, t: ThreadId)
    requires MovesOnly(s, s', t)
    ensures t in s'.threads
  {
  }

  lemma MoverOwns(threads: map<ThreadId, Thread>, t: ThreadId, i: InvocationId, entry: ActiveRun)
    requires t in threads && Owner(threads[t], i, entry)
    ensures Owned(threads, i, entry)
  {
  }

  lemma {:induction false} RunEntries(c: Config, s: System, steps: seq<Step>)
    requires Exec(c, s, steps).Some? && (Distinct(s.threads) ==> EntriesOk(s))
    ensures var s' := Exec(c, s, steps).value; Distinct(s'.threads) ==> EntriesOk(s')
    decreases |steps|
  {
    hide Apply, Distinct, EntriesOk;
    if steps != [] {
      var s1 := Apply(c, s, steps[0]).value;
      if Distinct(s1.threads) { StepEntries(c, s, steps[0]); }
      RunEntries(c, s1, steps[1..]);
    }
  }

  // ---------------------------------------------------------------- what a cancel hits

  lemma HeldWhileRegistered(pc: Pc, w: WorkerId)
    requires Registered(pc, w)
    ensures w in Held(pc) <==> !LetGo(pc)
  {
  }

  /**
   * With distinct invocation ids, every active entry has one owner: the invoke of that id, tenant
   * and lease. The worker the entry names is the owner's own exactly until the owner has
   * returned or retired it; whoever else holds it does so after that.
   */
  lemma EntryOwner(c: Config, s: System, i: InvocationId) returns (t: ThreadId)
    requires Reachable(c, s) && Distinct(s.threads) && i in s.active
    ensures t in s.threads && Owner(s.threads[t], i, s.active[i])
    ensures forall u :: u in s.threads && Owner(s.threads[u], i, s.active[i]) ==> u == t
    ensures s.active[i].w in Held(s.threads[t].pc) <==> !LetGo(s.threads[t].pc)
    ensures forall u :: u in s.threads && u != t && s.active[i].w in Held(s.threads[u].pc) ==> LetGo(s.threads[t].pc)
  {
    hide Apply, Registered, Held, LetGo;
    var steps :| Exec(c, INITIAL, steps) == Some(s);
    RunEntries(c, INITIAL, steps);
    assert Owned(s.threads, i, s.active[i]);
    t :| t in s.threads && Owner(s.threads[t], i, s.active[i]);
    HeldWhileRegistered(s.threads[t].pc, s.active[i].w);
    forall u | u in s.threads && u != t && s.active[i].w in Held(s.threads[u].pc) ensures LetGo(s.threads[t].pc) {
      if !LetGo(s.threads[t].pc) { WorkersAreExclusive(c, s, t, u, s.active[i].w); }
    }
    forall u | u in s.threads && Owner(s.threads[u], i, s.active[i]) ensures u == t {
      assert SameInvocation(s.threads[u], s.threads[t]);
    }
  }

  /** A cancel takes the entry out of the active map and retires its worker, exactly for the right tenant and lease. */
  lemma CancelsIff(s: System, t: ThreadId, tenant: TenantId, lease: LeaseId, i: InvocationId)
    requires CancelStep(s, t, tenant, lease, i).Some?
    ensures var s' := CancelStep(s, t, tenant, lease, i).value;
      && s'.ledger == s.ledger && s'.floor == s.floor
      && if i in s.active && s.active[i] == ActiveRun(tenant, lease, s.active[i].w) then
           && s'.active == s.active - {i} && i !in s'.active
           && s'.threads == s.threads[t := Service(Dooming(s.active[i].w, ThenEnd(tenant)))]
         else s'.active == s.active && s'.threads == s.threads[t := Service(Finished(Ended))]
  {
  }

  /** The invoke that the caller of cancel means. */
  predicate Meant(th: Thread, tenant: TenantId, lease: LeaseId, i: InvocationId) {
    th.Invoke? && th.req.invocation == i && th.req.key.tenant == tenant && th.req.lease == lease
  }

  /**
   * A cancel that gets through retires a worker that the invocation it names holds, exactly as
   * long as that invocation has not let go of it.
   */
  lemma CancelHitsItsOwn(c: Config, s: System, t: ThreadId, tenant: TenantId, lease: LeaseId, i: InvocationId)
    requires Reachable(c, s) && Distinct(s.threads) && CancelStep(s, t, tenant, lease, i).Some?
    requires CancelStep(s, t, tenant, lease, i).value.threads[t].pc.Dooming?
    ensures var pc := CancelStep(s, t, tenant, lease, i).value.threads[t].pc;
      exists u ::
        && u in s.threads && Meant(s.threads[u], tenant, lease, i)
        && (pc.w in Held(s.threads[u].pc) <==> !LetGo(s.threads[u].pc))
  {
    hide Reachable, Distinct, Held, LetGo, Registered;
    var u := EntryOwner(c, s, i);
  }

  // ---------------------------------------------------------------- a cancel that hits another invocation

  lemma OneStep(c: Config, s: System, step: Step)
    requires Reachable(c, s) && Apply(c, s, step).Some?
    ensures Reachable(c, Apply(c, s, step).value)
  {
    hide Apply, Reachable;
    assert Exec(c, Apply(c, s, step).value, []) == Some(Apply(c, s, step).value);
    assert Exec(c, s, [step]) == Apply(c, s, step);
    ReachesOn(c, s, [step]);
  }

  predicate NewRequest(s: System, t: ThreadId, req: Request, run: RunId) {
    && t !in s.threads && req.invocation !in s.active && run !in s.ledger.started
    && req.key !in s.ledger.tables.claims
  }

  function ClaimedLedger(ledger: Ledger, t: ThreadId, req: Request, now: Time, run: RunId): Ledger {
    BeginLedger(ledger, req, t, now, now, run).1
  }

  /** Admission, the check of the active map, and a fresh claim. */
  lemma Starts(c: Config, s: System, t: ThreadId, req: Request, run: RunId) returns (s': System)
    requires Reachable(c, s) && NewRequest(s, t, req, run)
    ensures Reachable(c, s')
    ensures s' == s.(threads := s.threads[t := Invoke(req, Begun(run))],
                     ledger := ClaimedLedger(s.ledger, t, req, s.now, run))
    ensures IsRunning(s'.ledger.tables, run) && HoldsClaim(s'.ledger.tables, req.key, run)
    ensures s'.ledger.started == s.ledger.started[run := s'.ledger.started[run]]
    ensures s'.ledger.tables.claims.Keys == s.ledger.tables.claims.Keys + {req.key}
  {
    hide Reachable, BeginLedger;
    var s1 := s.(threads := s.threads[t := Invoke(req, Admitted)]);
    assert Apply(c, s, Admit(t, req)) == Some(s1);
    OneStep(c, s, Admit(t, req));
    var s2 := s.(threads := s.threads[t := Invoke(req, Checked)]);
    assert s1.threads[t := Invoke(req, Checked)] == s2.threads;
    assert Apply(c, s1, CheckActive(t)) == Some(s2);
    OneStep(c, s1, CheckActive(t));
    FreshClaim(s.ledger, t, req, s.now, run);
    s' := s.(threads := s.threads[t := Invoke(req, Begun(run))], ledger := ClaimedLedger(s.ledger, t, req, s.now, run));
    assert s2.threads[t := Invoke(req, Begun(run))] == s'.threads;
    assert Apply(c, s2, BeginRun(t, s.now, run)) == Some(s');
    OneStep(c, s2, BeginRun(t, s.now, run));
  }

  lemma FreshClaim(ledger: Ledger, t: ThreadId, req: Request, now: Time, run: RunId)
    requires req.key !in ledger.tables.claims
    ensures var (pc, ledger') := BeginLedger(ledger, req, t, now, now, run);
      && pc == Begun(run) && IsRunning(ledger'.tables, run) && HoldsClaim(ledger'.tables, req.key, run)
      && ledger'.started == ledger.started[run := ledger'.started[run]]
      && ledger'.tables.claims.Keys == ledger.tables.claims.Keys + {req.key}
  {
    hide Begin, IsRunning, HoldsClaim;
    FreshRows(ledger.tables, req, now, run);
  }

  lemma FreshRows(tables: Tables, req: Request, now: Time, run: RunId)
    requires req.key !in tables.claims
    ensures var (outcome, tables') := Begin(tables, req.key, req.fingerprint, now, now, run);
      && outcome == Fresh(run) && IsRunning(tables', run) && HoldsClaim(tables', req.key, run)
      && tables'.claims.Keys == tables.claims.Keys + {req.key}
  {
  }

  function NewWorker(req: Request, now: Time): Worker {
    Worker(Home(req), {req.key.release}, now, 0, true, false)
  }

  /** With nothing idle and tokens to spare, a token is reserved. */
  lemma ReservesToken(c: Config, s: System, t: ThreadId, run: RunId) returns (s': System)
    requires Reachable(c, s) && Invoking(s, t) && s.threads[t].pc == Begun(run)
    requires s.floor == EMPTY_FLOOR && c.limits.maxLive > 0 && c.limits.maxLivePerTenant > 0
    ensures Reachable(c, s')
    ensures s' == s.(threads := s.threads[t := s.threads[t].(pc := Creating(run))], floor := s'.floor)
    ensures s'.floor == EMPTY_FLOOR.(quota := s'.floor.quota)
  {
    hide Reachable;
    var (th, req) := (s.threads[t], s.threads[t].req);
    var s1 := s.(threads := s.threads[t := th.(pc := Draining(run, [], None))]);
    assert PopFloor(s.floor, t, Home(req), Pick([], [], None)) == s.floor by {
      assert Taken(s.floor.custody, [], t) == s.floor.custody;
    }
    assert Apply(c, s, Pop(t)) == Some(s1);
    OneStep(c, s, Pop(t));
    var s2 := s.(threads := s.threads[t := th.(pc := Reserving(run))]);
    assert s1.threads[t := th.(pc := Reserving(run))] == s2.threads;
    assert Apply(c, s1, Drain(t)) == Some(s2);
    OneStep(c, s1, Drain(t));
    var quota := Quota.Reserve(s.floor.quota, c.limits, req.key.tenant).1;
    s' := s.(threads := s.threads[t := th.(pc := Creating(run))], floor := s.floor.(quota := quota));
    assert s2.threads[t := th.(pc := Creating(run))] == s'.threads;
    assert Apply(c, s2, ReserveLive(t)) == Some(s');
    OneStep(c, s2, ReserveLive(t));
  }

  /** A new worker is made and registered. */
  lemma MakesWorker(c: Config, s: System, t: ThreadId, run: RunId, w: WorkerId) returns (s': System)
    requires Reachable(c, s) && Invoking(s, t) && s.threads[t].pc == Creating(run) && s.active == map[]
    requires s.floor.workers == map[] && s.floor.idle == map[]
    ensures Reachable(c, s') && s'.now == s.now && s'.ledger == s.ledger
    ensures s'.threads == s.threads[t := s.threads[t].(pc := Executing(run, w))]
    ensures var req := s.threads[t].req;
      && s'.active == map[req.invocation := ActiveRun(req.key.tenant, req.lease, w)]
      && s'.floor.workers == map[w := NewWorker(req, s.now)] && s'.floor.idle == map[]
  {
    hide Reachable;
    var (th, req) := (s.threads[t], s.threads[t].req);
    var floor := CreateFloor(s.floor, t, w, NewWorker(req, s.now));
    var s1 := s.(threads := s.threads[t := th.(pc := Holding(run, w))], floor := floor);
    assert Apply(c, s, Create(t, w)) == Some(s1);
    OneStep(c, s, Create(t, w));
    s' := s1.(threads := s.threads[t := th.(pc := Executing(run, w))],
              active := map[req.invocation := ActiveRun(req.key.tenant, req.lease, w)]);
    assert s1.threads[t := th.(pc := Executing(run, w))] == s'.threads;
    assert Apply(c, s1, Register(t)) == Some(s');
    OneStep(c, s1, Register(t));
  }

  /** The run gives a result, which is committed. */
  lemma CommitsResult(c: Config, s: System, t: ThreadId, run: RunId, w: WorkerId, result: RunResult)
    returns (s': System)
    requires Reachable(c, s) && Invoking(s, t) && s.threads[t].pc == Executing(run, w)
    requires IsRunning(s.ledger.tables, run) && HoldsClaim(s.ledger.tables, s.threads[t].req.key, run)
    ensures Reachable(c, s') && s'.now == s.now && s'.active == s.active && s'.floor == s.floor
    ensures s'.threads == s.threads[t := s.threads[t].(pc := Persisted(run, w, result))]
    ensures s'.ledger.started == s.ledger.started && s'.ledger.tables.claims.Keys == s.ledger.tables.claims.Keys
  {
    hide Reachable, FinishLedger;
    var (th, req) := (s.threads[t], s.threads[t].req);
    var s1 := s.(threads := s.threads[t := th.(pc := Computed(run, w, result))]);
    assert Apply(c, s, Execute(t, Some(result))) == Some(s1);
    OneStep(c, s, Execute(t, Some(result)));
    Commits(c, s.ledger, req, run, result, s.now);
    var ledger := FinishLedger(c, s.ledger, req, run, result, s.now, s.now).1;
    s' := s.(threads := s.threads[t := th.(pc := Persisted(run, w, result))], ledger := ledger);
    assert s1.threads[t := th.(pc := Persisted(run, w, result))] == s'.threads;
    assert Apply(c, s1, FinishRun(t, s.now)) == Some(s');
    OneStep(c, s1, FinishRun(t, s.now));
  }

  /** The worker goes back to the list; the active entry stays for now. */
  lemma ReturnsWorker(c: Config, s: System, t: ThreadId, run: RunId, w: WorkerId, result: RunResult)
    returns (s': System)
    requires Reachable(c, s) && Invoking(s, t) && s.threads[t].pc == Persisted(run, w, result)
    requires s.threads[t].req.reuseSandbox && KeepsSandbox(result)
    requires s.floor.workers == map[w := NewWorker(s.threads[t].req, s.now)] && s.floor.idle == map[]
    ensures Reachable(c, s') && s'.now == s.now && s'.active == s.active && s'.ledger == s.ledger
    ensures s'.threads == s.threads[t := s.threads[t].(pc := Unwinding(Returned(run, result)))]
    ensures s'.floor.workers == map[w := NewWorker(s.threads[t].req, s.now).(runs := 1)]
    ensures s'.floor.idle == map[Home(s.threads[t].req) := [w]]
  {
    hide Reachable, KeepsSandbox;
    var (th, req) := (s.threads[t], s.threads[t].req);
    var floor := UpdateWorker(s.floor, w, NewWorker(req, s.now).(runs := 1));
    var s1 := s.(threads := s.threads[t := th.(pc := Keeping(run, w, result))], floor := floor);
    assert Apply(c, s, Retire(t)) == Some(s1);
    OneStep(c, s, Retire(t));
    s' := s1.(threads := s.threads[t := th.(pc := Unwinding(Returned(run, result)))], floor := ReturnFloor(floor, w));
    assert [] + [w] == [w];
    assert s1.threads[t := th.(pc := Unwinding(Returned(run, result)))] == s'.threads;
    assert Apply(c, s1, Step.Return(t)) == Some(s');
    OneStep(c, s1, Step.Return(t));
  }

  lemma Commits(c: Config, ledger: Ledger, req: Request, run: RunId, result: RunResult, now: Time)
    requires IsRunning(ledger.tables, run) && HoldsClaim(ledger.tables, req.key, run)
    ensures var (committed, ledger') := FinishLedger(c, ledger, req, run, result, now, now);
      && committed && ledger'.started == ledger.started
      && ledger'.tables.claims.Keys == ledger.tables.claims.Keys
  {
  }

  /** Another invoke pops the only idle worker and gets it ready. */
  lemma TakesWarm(c: Config, s: System, t: ThreadId, run: RunId, w: WorkerId) returns (s': System)
    requires Reachable(c, s) && Invoking(s, t) && s.threads[t].pc == Begun(run)
    requires s.floor.workers == map[w := NewWorker(s.threads[t].req, s.now).(runs := 1)]
    requires s.floor.idle == map[Home(s.threads[t].req) := [w]] && c.settings.idleSeconds >= 0
    ensures Reachable(c, s') && s'.active == s.active
    ensures s'.threads == s.threads[t := s.threads[t].(pc := Holding(run, w))]
  {
    hide Reachable;
    var (th, req) := (s.threads[t], s.threads[t].req);
    var p := Scan([w], s.floor.workers, req.key.release, s.now, c.settings);
    assert p == Pick([], [], Some(w));
    var floor := PopFloor(s.floor, t, Home(req), p);
    var s1 := s.(threads := s.threads[t := th.(pc := Draining(run, [], Some(w)))], floor := floor);
    assert Apply(c, s, Pop(t)) == Some(s1);
    OneStep(c, s, Pop(t));
    var s2 := s1.(threads := s.threads[t := th.(pc := Preparing(run, w))]);
    assert s1.threads[t := th.(pc := Preparing(run, w))] == s2.threads;
    assert Apply(c, s1, Drain(t)) == Some(s2);
    OneStep(c, s1, Drain(t));
    s' := Apply(c, s2, Prepare(t, true)).value;
    assert s2.threads[t := th.(pc := Holding(run, w))] == s.threads[t := th.(pc := Holding(run, w))];
    OneStep(c, s2, Prepare(t, true));
  }

  /** Two requests of one tenant for one release, apart in everything that has to be. */
  predicate TwoRequests(a: Request, b: Request) {
    && a.invocation != b.invocation && a.key != b.key && Home(a) == Home(b) && a.key.release == b.key.release
    && a.reuseSandbox
  }

  /** The first request, alone in the runner, up to the return of its worker. */
  lemma FirstReturns(c: Config, t: ThreadId, a: Request, run: RunId, w: WorkerId, result: RunResult)
    returns (s: System)
    requires c.limits.maxLive > 0 && c.limits.maxLivePerTenant > 0 && a.reuseSandbox && KeepsSandbox(result)
    ensures Reachable(c, s) && s.threads == map[t := Invoke(a, Unwinding(Returned(run, result)))]
    ensures s.active == map[a.invocation := ActiveRun(a.key.tenant, a.lease, w)]
    ensures s.ledger.started.Keys == {run} && s.ledger.tables.claims.Keys == {a.key}
    ensures s.floor.workers == map[w := NewWorker(a, s.now).(runs := 1)] && s.floor.idle == map[Home(a) := [w]]
  {
    hide Reachable, KeepsSandbox, Apply, ClaimedLedger;
    StartIsReachable(c);
    var s1 := Starts(c, INITIAL, t, a, run);
    var s2 := ReservesToken(c, s1, t, run);
    var s3 := MakesWorker(c, s2, t, run, w);
    var s4 := CommitsResult(c, s3, t, run, w, result);
    s := ReturnsWorker(c, s4, t, run, w, result);
    assert s1.threads == map[t := Invoke(a, Begun(run))];
    assert s1.ledger.started.Keys == {run};
  }

  /**
   * A reachable state, all invocation ids distinct, in which cancelling one invocation retires
   * the worker of another: the first has returned its worker and is on the way out of the
   * active map, the second has just been given that worker.
   */
  lemma CancelCanHitAnother(c: Config, t: ThreadId, u: ThreadId, v: ThreadId, a: Request, b: Request, runA: RunId,
                            runB: RunId, w: WorkerId, result: RunResult) returns (s: System)
    requires c.limits.maxLive > 0 && c.limits.maxLivePerTenant > 0 && c.settings.idleSeconds >= 0
    requires t != u && v != t && v != u && runA != runB && TwoRequests(a, b) && KeepsSandbox(result)
    ensures Reachable(c, s) && Distinct(s.threads)
    ensures var cancelled := CancelStep(s, v, a.key.tenant, a.lease, a.invocation);
      cancelled.Some? && cancelled.value.threads[v] == Service(Dooming(w, ThenEnd(a.key.tenant)))
    ensures s.threads == map[t := Invoke(a, Unwinding(Returned(runA, result))), u := Invoke(b, Holding(runB, w))]
    ensures w in Held(s.threads[u].pc) && w !in Held(s.threads[t].pc)
  {
    hide Reachable, KeepsSandbox, Apply, ClaimedLedger, Held;
    var s1 := FirstReturns(c, t, a, runA, w, result);
    var s2 := Starts(c, s1, u, b, runB);
    s := TakesWarm(c, s2, u, runB, w);
    HoldingHolds(runA, runB, w, result);
  }

  lemma HoldingHolds(runA: RunId, runB: RunId, w: WorkerId, result: RunResult)
    ensures w in Held(Holding(runB, w)) && w !in Held(Unwinding(Returned(runA, result)))
  {
  }

  lemma StartIsReachable(c: Config)
    ensures Reachable(c, INITIAL)
  {
    assert Exec(c, INITIAL, []) == Some(INITIAL);
  }
}
