/**
 * What an invocation finds in the worker it gets, and which workers go back: the release is
 * installed and the worker is of the request's own kind, no worker ever carries more releases
 * than the limit, and only workers whose sandbox outlives the result return to the pool.
 */
module RunnerUse {
  import opened Prelude
  import opened RunnerModel
  import opened RunnerState
  import opened WorkerPool
  import opened Runner
  import opened RunnerCustody
  import opened RunnerTokens
  import opened RunnerLedger
  import opened RunnerTheorems
  import opened RunnerProgress
  import opened RunnerCancel
  import Quota

  /** The invocation has a worker that is ready for it. */
  predicate Working(pc: Pc) {
    pc.Holding? || pc.Executing? || pc.Computed? || pc.Persisted? || pc.Keeping?
  }

  predicate Equipped(worker: Worker, req: Request) {
    req.key.release in worker.installed && worker.home == Home(req)
  }

  /** The release is installed, or there is room for it. */
  predicate HasRoom(worker: Worker, release: ReleaseId, settings: Settings) {
    release in worker.installed || |worker.installed| < settings.maxInstalled
  }

  function CandidateNext(next: Then): Option<WorkerId> {
    if next.ThenDrain? then next.candidate else None
  }

  /** The warm worker that an invocation has taken from the pool and not yet prepared. */
  function Candidate(pc: Pc): Option<WorkerId> {
    match pc
    case Draining(_, _, candidate) => candidate
    case Preparing(_, w) => Some(w)
    case Dooming(_, next) => CandidateNext(next)
    case Destroying(_, next) => CandidateNext(next)
    case Deleting(_, next) => CandidateNext(next)
    case _ => None
  }

  /** Results after which the sandbox can be used again. */
  predicate Survives(result: RunResult) {
    || result.status == "SUCCEEDED"
    || result.errorCode == "TIMEOUT" || result.errorCode == "USER_EXCEPTION"
    || result.errorCode == "USER_PROCESS_EXITED" || result.errorCode == "OUTPUT_LIMIT"
    || result.errorCode == "INVALID_CHILD_RESPONSE" || result.errorCode == "OPERATOR_REPORTED_FAILURE"
  }

  ghost predicate UseOf(th: Thread, workers: Workers, settings: Settings) {
    th.Invoke? ==>
      && (Working(th.pc) ==> th.pc.w in workers && Equipped(workers[th.pc.w], th.req))
      && (Candidate(th.pc).Some? ==>
            && Candidate(th.pc).value in workers
            && HasRoom(workers[Candidate(th.pc).value], th.req.key.release, settings))
      && (th.pc.Keeping? ==> th.req.reuseSandbox && Survives(th.pc.result))
  }

  /** A worker is made with one release; more are installed up to the limit. */
  predicate WithinLimit(worker: Worker, settings: Settings) {
    |worker.installed| <= 1 || |worker.installed| <= settings.maxInstalled
  }

  ghost predicate UseOk(threads: map<ThreadId, Thread>, workers: Workers, settings: Settings) {
    && (forall w :: w in workers ==> WithinLimit(workers[w], settings))
    && (forall t :: t in threads ==> UseOf(threads[t], workers, settings))
  }

  // ---------------------------------------------------------------- steps that install nothing

  predicate SameTools(workers: Workers, workers': Workers) {
    && workers.Keys == workers'.Keys
    && forall w :: w in workers ==>
         workers'[w].home == workers[w].home && workers'[w].installed == workers[w].installed
  }

  /** The thread kept the worker it had, if it has one, and took no new candidate. */
  predicate SameUse(pc: Pc, pc': Pc) {
    && (Working(pc') ==> Working(pc) && pc'.w == pc.w)
    && (Candidate(pc').Some? ==> Candidate(pc') == Candidate(pc))
  }

  predicate Idles(pc: Pc) {
    !Working(pc) && Candidate(pc).None?
  }

  /** Only thread `t` moved, and no release was installed on any worker. */
  ghost predicate Uses(s: System, s': System, t: ThreadId) {
    && MovesOnly(s, s', t) && SameTools(s.floor.workers, s'.floor.workers)
    && (if t in s.threads then SameUse(s.threads[t].pc, s'.threads[t].pc) else Idles(s'.threads[t].pc))
    && (s'.threads[t].pc.Keeping? ==>
          s'.threads[t].Invoke? && s'.threads[t].req.reuseSandbox && Survives(s'.threads[t].pc.result))
  }

  lemma UseStays(th: Thread, workers: Workers, workers': Workers, settings: Settings)
    requires UseOf(th, workers, settings) && SameTools(workers, workers')
    ensures UseOf(th, workers', settings)
  {
  }

  lemma UseMoves(th: Thread, pc': Pc, workers: Workers, settings: Settings)
    requires UseOf(th, workers, settings) && SameUse(th.pc, pc')
    requires pc'.Keeping? ==> th.Invoke? && th.req.reuseSandbox && Survives(pc'.result)
    ensures UseOf(th.(pc := pc'), workers, settings)
  {
    hide Survives;
  }

  lemma UsesKeeps(s: System, s': System, t: ThreadId, settings: Settings)
    requires UseOk(s.threads, s.floor.workers, settings) && Uses(s, s', t)
    ensures UseOk(s'.threads, s'.floor.workers, settings)
  {
    hide UseOf, Working, Candidate, Survives, SameUse;
    assert t in s.threads ==> s'.threads[t] == s.threads[t].(pc := s'.threads[t].pc);
    forall u | u in s'.threads ensures UseOf(s'.threads[u], s'.floor.workers, settings) {
      if u != t {
        UseStays(s.threads[u], s.floor.workers, s'.floor.workers, settings);
      } else {
        if t in s.threads {
          UseMoves(s.threads[t], s'.threads[t].pc, s.floor.workers, settings);
        } else {
          IdleUse(s'.threads[t], s.floor.workers, settings);
        }
        UseStays(s'.threads[t], s.floor.workers, s'.floor.workers, settings);
      }
    }
  }

  lemma IdleUse(th: Thread, workers: Workers, settings: Settings)
    requires Idles(th.pc)
    ensures UseOf(th, workers, settings)
  {
  }

  predicate Installs(step: Step) {
    step.Prepare? || step.Create? || step.Pop?
  }

  predicate EarlyStep(step: Step) {
    step.Admit? || step.CheckActive? || step.BeginRun? || step.BeginRaises?
  }

  predicate QuotaStep(step: Step) {
    step.ReserveLive? || step.CreateRaises?
  }

  predicate WorkStep(step: Step) {
    step.Register? || step.Execute? || step.FinishRun? || step.FinishRaises? || step.Return?
  }

  predicate RetireStage(step: Step) {
    step.Drain? || step.MarkUnhealthy? || step.MarkDestroyed? || step.ReturnToken?
  }

  /** What is said of a step besides that only its thread moves. */
  ghost predicate LeavesTools(s: System, s': System, t: ThreadId) {
    && t in s'.threads && SameTools(s.floor.workers, s'.floor.workers)
    && (if t in s.threads then SameUse(s.threads[t].pc, s'.threads[t].pc) else Idles(s'.threads[t].pc))
    && (s'.threads[t].pc.Keeping? ==>
          s'.threads[t].Invoke? && s'.threads[t].req.reuseSandbox && Survives(s'.threads[t].pc.result))
  }

  lemma EarlyUses(c: Config, s: System, step: Step)
    requires EarlyStep(step) && Apply(c, s, step).Some?
    ensures LeavesTools(s, Apply(c, s, step).value, step.t)
  {
    hide Begin, Survives;
  }

  lemma QuotaUses(c: Config, s: System, step: Step)
    requires QuotaStep(step) && Apply(c, s, step).Some?
    ensures LeavesTools(s, Apply(c, s, step).value, step.t)
  {
    hide Survives, Quota.Reserve, Quota.Release;
  }

  lemma WorkUses(c: Config, s: System, step: Step)
    requires WorkStep(step) && Apply(c, s, step).Some?
    ensures LeavesTools(s, Apply(c, s, step).value, step.t)
  {
    hide Finish, Survives;
  }

  lemma RetireUses(c: Config, s: System, t: ThreadId)
    requires RetireStep(s, t).Some?
    ensures LeavesTools(s, RetireStep(s, t).value, t)
  {
  }

  lemma DrainUses(c: Config, s: System, t: ThreadId)
    requires DrainStep(s, t).Some?
    ensures LeavesTools(s, DrainStep(s, t).value, t)
  {
    hide Survives;
  }

  lemma FlagUses(c: Config, s: System, t: ThreadId)
    ensures MarkUnhealthyStep(s, t).Some? ==> LeavesTools(s, MarkUnhealthyStep(s, t).value, t)
    ensures MarkDestroyedStep(s, t).Some? ==> LeavesTools(s, MarkDestroyedStep(s, t).value, t)
  {
    hide Survives, AfterRetiring;
    if MarkDestroyedStep(s, t).Some? { AfterRetiringUses(s.threads[t].pc.w, s.threads[t].pc.next, false); }
  }

  lemma AfterRetiringUses(w: WorkerId, next: Then, raised: bool)
    ensures var pc := AfterRetiring(next, raised);
      && !Working(pc) && !pc.Keeping? && (Candidate(pc).Some? ==> Candidate(pc) == CandidateNext(next))
  {
  }

  lemma TokenUses(c: Config, s: System, t: ThreadId, raised: bool)
    requires ReturnTokenStep(s, t, raised).Some?
    ensures LeavesTools(s, ReturnTokenStep(s, t, raised).value, t)
  {
    hide Survives, Quota.Release, Dropped, AfterRetiring;
    AfterRetiringUses(s.threads[t].pc.w, s.threads[t].pc.next, raised);
  }

  lemma StageUses(c: Config, s: System, step: Step)
    requires RetireStage(step) && Apply(c, s, step).Some?
    ensures LeavesTools(s, Apply(c, s, step).value, step.t)
  {
    hide LeavesTools, DrainStep, MarkUnhealthyStep, MarkDestroyedStep, ReturnTokenStep;
    if step.Drain? { DrainUses(c, s, step.t); }
    else if step.ReturnToken? { TokenUses(c, s, step.t, step.raised); }
    else { FlagUses(c, s, step.t); }
  }

  lemma LeaveUses(c: Config, s: System, step: Step)
    requires LeaveStep(step) && Apply(c, s, step).Some?
    ensures LeavesTools(s, Apply(c, s, step).value, step.t)
  {
    hide Survives, Abandon;
  }

  lemma SweepUses(s: System, t: ThreadId)
    requires SweepStep(s, t).Some?
    ensures LeavesTools(s, SweepStep(s, t).value, t)
  {
  }

  lemma StartUses(c: Config, s: System, step: Step)
    requires (step.Cancel? || step.Reap?) && Apply(c, s, step).Some?
    ensures LeavesTools(s, Apply(c, s, step).value, step.t)
  {
    hide Survives, SweepOf, Swept, Taken;
  }

  lemma ServiceUses(c: Config, s: System, step: Step)
    requires (step.Cancel? || step.Reap? || step.Sweep?) && Apply(c, s, step).Some?
    ensures LeavesTools(s, Apply(c, s, step).value, step.t)
  {
    hide LeavesTools, SweepStep;
    if step.Sweep? { SweepUses(s, step.t); } else { StartUses(c, s, step); }
  }

  lemma QuietUses(c: Config, s: System, step: Step)
    requires HasThread(step) && !Installs(step) && Apply(c, s, step).Some?
    ensures Uses(s, Apply(c, s, step).value, step.t)
  {
    hide Apply, SameTools, SameUse, Survives, MovesOnly, RetireStep;
    StepMovesOnly(c, s, step);
    if EarlyStep(step) { EarlyUses(c, s, step); }
    else if QuotaStep(step) { QuotaUses(c, s, step); }
    else if WorkStep(step) { WorkUses(c, s, step); }
    else if RetireStage(step) { StageUses(c, s, step); }
    else if step.Retire? {
      RetireIsAStep(c, s, step);
      RetireUses(c, s, step.t);
    }
    else if LeaveStep(step) { LeaveUses(c, s, step); }
    else { ServiceUses(c, s, step); }
  }

  lemma RetireIsAStep(c: Config, s: System, step: Step)
    requires step.Retire?
    ensures Apply(c, s, step) == RetireStep(s, step.t)
  {
    hide RetireStep;
  }

  // ---------------------------------------------------------------- steps that install

  lemma PopUses(c: Config, s: System, t: ThreadId)
    requires CustodyOk(s.threads, s.floor) && PopStep(c, s, t).Some? && UseOk(s.threads, s.floor.workers, c.settings)
    ensures var s' := PopStep(c, s, t).value; UseOk(s'.threads, s'.floor.workers, c.settings)
  {
    hide UseOf, Scan;
    var (req, s') := (s.threads[t].req, PopStep(c, s, t).value);
    PopKeeps(s.floor.idle, s.floor.workers, Home(req), req.key.release, s.now, c.settings);
    forall u | u in s'.threads ensures UseOf(s'.threads[u], s'.floor.workers, c.settings) {
      if u == t { PickedUse(s'.threads[t], s'.floor.workers, s.now, c.settings); }
    }
  }

  lemma PickedUse(th: Thread, workers: Workers, now: Time, settings: Settings)
    requires th.Invoke? && th.pc.Draining?
    requires th.pc.candidate.Some? ==>
      th.pc.candidate.value in workers && Fit(workers[th.pc.candidate.value], th.req.key.release, now, settings)
    ensures UseOf(th, workers, settings)
  {
  }

  lemma CreateUses(c: Config, s: System, t: ThreadId, w: WorkerId)
    requires CreateStep(s, t, w).Some? && UseOk(s.threads, s.floor.workers, c.settings)
    ensures var s' := CreateStep(s, t, w).value; UseOk(s'.threads, s'.floor.workers, c.settings)
  {
    hide UseOf;
    var s' := CreateStep(s, t, w).value;
    var (old_, new_) := (s.floor.workers, s'.floor.workers);
    assert |new_[w].installed| == 1;
    forall u | u in s'.threads ensures UseOf(s'.threads[u], new_, c.settings) {
      if u == t {
        HoldingUse(s'.threads[t], new_, c.settings);
      } else {
        UseWithin(s.threads[u], old_, new_, c.settings);
      }
    }
  }

  lemma HoldingUse(th: Thread, workers: Workers, settings: Settings)
    requires th.Invoke? && th.pc.Holding? && th.pc.w in workers && Equipped(workers[th.pc.w], th.req)
    ensures UseOf(th, workers, settings)
  {
  }

  lemma UseWithin(th: Thread, workers: Workers, workers': Workers, settings: Settings)
    requires UseOf(th, workers, settings) && forall w :: w in workers ==> w in workers' && workers'[w] == workers[w]
    ensures UseOf(th, workers', settings)
  {
  }

  /** Only its holder installs anything on a worker. */
  lemma PrepareUses(c: Config, s: System, t: ThreadId, ok: bool)
    requires CustodyOk(s.threads, s.floor) && PrepareStep(s, t, ok).Some?
    requires UseOk(s.threads, s.floor.workers, c.settings)
    ensures var s' := PrepareStep(s, t, ok).value; UseOk(s'.threads, s'.floor.workers, c.settings)
  {
    hide UseOf, Filed, IsIdle, Placed;
    var (th, w, s') := (s.threads[t], s.threads[t].pc.w, PrepareStep(s, t, ok).value);
    assert Custodian(t, th, s.floor) && w in Held(th.pc) && th.pc.Preparing?;
    PreparingUse(th, s.floor.workers, c.settings);
    forall u | u in s'.threads ensures UseOf(s'.threads[u], s'.floor.workers, c.settings) {
      if u != t {
        assert Custodian(u, s.threads[u], s.floor);
        UseElsewhere(s.threads[u], s.floor.workers, s'.floor.workers, w, c.settings);
      } else if ok {
        HoldingUse(s'.threads[t], s'.floor.workers, c.settings);
      } else {
        IdleUse(s'.threads[t], s'.floor.workers, c.settings);
      }
    }
  }

  lemma PreparingUse(th: Thread, workers: Workers, settings: Settings)
    requires th.Invoke? && th.pc.Preparing? && UseOf(th, workers, settings)
    ensures th.pc.w in workers && HasRoom(workers[th.pc.w], th.req.key.release, settings)
  {
  }

  lemma UseElsewhere(th: Thread, workers: Workers, workers': Workers, w: WorkerId, settings: Settings)
    requires UseOf(th, workers, settings) && w !in Held(th.pc)
    requires w in workers && w in workers' && workers' == workers[w := workers'[w]]
    ensures UseOf(th, workers', settings)
  {
    assert Working(th.pc) ==> th.pc.w in Held(th.pc);
    assert Candidate(th.pc).Some? ==> Candidate(th.pc).value in Held(th.pc);
    hide Held;
  }

  // ---------------------------------------------------------------- every run

  lemma StepUses(c: Config, s: System, step: Step)
    requires Inv(c, s) && UseOk(s.threads, s.floor.workers, c.settings) && Apply(c, s, step).Some?
    ensures var s' := Apply(c, s, step).value; UseOk(s'.threads, s'.floor.workers, c.settings)
  {
    hide BooksOk, CustodyOk, DeletionOk, AliasesOk, TokensOk, UseOk, PopStep, CreateStep, PrepareStep;
    if step.Pop? { PopUses(c, s, step.t); }
    else if step.Create? { CreateUses(c, s, step.t, step.w); }
    else if step.Prepare? { PrepareUses(c, s, step.t, step.ok); }
    else if HasThread(step) {
      hide Apply;
      QuietUses(c, s, step);
      UsesKeeps(s, Apply(c, s, step).value, step.t, c.settings);
    } else {
      JanitorUses(c, s, step);
    }
  }

  lemma JanitorUses(c: Config, s: System, step: Step)
    requires UseOk(s.threads, s.floor.workers, c.settings) && !HasThread(step) && Apply(c, s, step).Some?
    ensures var s' := Apply(c, s, step).value; UseOk(s'.threads, s'.floor.workers, c.settings)
  {
    hide UseOf, WithinLimit, ResetRunning, PurgeExpired, PurgeOldRuns;
  }

  lemma {:induction false} RunUses(c: Config, s: System, steps: seq<Step>)
    requires Inv(c, s) && UseOk(s.threads, s.floor.workers, c.settings) && Exec(c, s, steps).Some?
    ensures var s' := Exec(c, s, steps).value; UseOk(s'.threads, s'.floor.workers, c.settings)
    decreases |steps|
  {
    hide Inv, Apply, UseOk;
    if steps != [] {
      StepUses(c, s, steps[0]);
      StepInv(c, s, steps[0]);
      RunUses(c, Apply(c, s, steps[0]).value, steps[1..]);
    }
  }

  lemma ReachableUses(c: Config, s: System)
    requires Reachable(c, s)
    ensures UseOk(s.threads, s.floor.workers, c.settings)
  {
    var steps :| Exec(c, INITIAL, steps) == Some(s);
    InitiallyInv(c);
    assert UseOk(INITIAL.threads, INITIAL.floor.workers, c.settings);
    hide Inv, UseOk;
    RunUses(c, INITIAL, steps);
  }

  /** The worker of an invocation is of its tenant, runtime and profile and has its release, whatever else runs. */
  lemma WorkersAreEquipped(c: Config, s: System, t: ThreadId)
    requires Reachable(c, s) && Invoking(s, t) && Working(s.threads[t].pc)
    ensures var (w, req) := (s.threads[t].pc.w, s.threads[t].req);
      && w in s.floor.workers && req.key.release in s.floor.workers[w].installed
      && s.floor.workers[w].home == PoolKey(req.key.tenant, req.runtime, req.profile)
  {
    hide Reachable;
    ReachableUses(c, s);
    assert UseOf(s.threads[t], s.floor.workers, c.settings);
  }

  /** No worker ever carries more releases than the limit; one is always allowed. */
  lemma InstalledWithinLimit(c: Config, s: System, w: WorkerId)
    requires Reachable(c, s) && w in s.floor.workers
    ensures |s.floor.workers[w].installed| <= 1 || |s.floor.workers[w].installed| <= c.settings.maxInstalled
  {
    hide Reachable, UseOf;
    ReachableUses(c, s);
  }

  /**
   * After the commit a worker goes back to the pool exactly if the sandbox survives the result,
   * the policy reuses sandboxes and nobody has doomed the worker meanwhile; else it is retired.
   * What does go back is appended to the idle list of its own kind.
   */
  lemma ReturnsIff(c: Config, s: System, t: ThreadId)
    requires RetireStep(s, t).Some?
    ensures var (th, s') := (s.threads[t], RetireStep(s, t).value);
      var worker := s.floor.workers[th.pc.w];
      && (s'.threads[t].pc == Keeping(th.pc.run, th.pc.w, th.pc.result) <==>
            Survives(th.pc.result) && th.req.reuseSandbox && worker.healthy && !worker.destroyed)
      && (s'.threads[t].pc == Dooming(th.pc.w, ThenReturn(th.pc.run, th.pc.result)) <==> !Survives(th.pc.result))
      && (s'.threads[t].pc.Keeping? || s'.threads[t].pc.Dooming?
            || s'.threads[t].pc == Destroying(th.pc.w, ThenReturn(th.pc.run, th.pc.result)))
      && s'.floor.workers[th.pc.w].installed == worker.installed
      && s'.floor.workers[th.pc.w].runs == worker.runs + (if Survives(th.pc.result) then 1 else 0)
      && s'.floor.workers[th.pc.w].lastUsed == if Survives(th.pc.result) then s.now else worker.lastUsed
  {
  }

  /** A prepared worker has its release and counts as used now; a failed preparation retires it and gives up the run. */
  lemma PreparesIff(s: System, t: ThreadId, ok: bool)
    requires PrepareStep(s, t, ok).Some?
    ensures var (th, s') := (s.threads[t], PrepareStep(s, t, ok).value);
      var (worker, worker') := (s.floor.workers[th.pc.w], s'.floor.workers[th.pc.w]);
      if ok then
        && s'.threads[t].pc == Holding(th.pc.run, th.pc.w) && worker'.lastUsed == s.now
        && worker'.installed - {th.req.key.release} == worker.installed - {th.req.key.release}
        && th.req.key.release in worker'.installed && worker'.runs == worker.runs && worker'.healthy == worker.healthy
      else s'.threads[t].pc == Dooming(th.pc.w, ThenAbandon(th.pc.run)) && s'.floor == s.floor
  {
  }

  /** A new worker is of the request's kind, unused, and has exactly its release. */
  lemma CreatesFresh(s: System, t: ThreadId, w: WorkerId)
    requires CreateStep(s, t, w).Some?
    ensures var (req, s') := (s.threads[t].req, CreateStep(s, t, w).value);
      && w !in s.floor.workers && w in s'.floor.workers && s'.floor.workers - {w} == s.floor.workers
      && (forall release :: release in s'.floor.workers[w].installed <==> release == req.key.release)
      && s'.floor.workers[w].home == Home(req) && s'.floor.workers[w].runs == 0 && s'.floor.workers[w].lastUsed == s.now
      && s'.floor.workers[w].healthy && !s'.floor.workers[w].destroyed
      && s'.threads[t].pc == Holding(s.threads[t].pc.run, w)
  {
  }

  /** Admission: an id that is active is refused before anything is claimed. */
  lemma ActiveIdsAreRefused(s: System, t: ThreadId)
    requires CheckActiveStep(s, t).Some?
    ensures var s' := CheckActiveStep(s, t).value;
      && s'.ledger == s.ledger && s'.floor == s.floor && s'.active == s.active
      && (s'.threads[t].pc == Finished(Rejected) <==> s.threads[t].req.invocation in s.active)
      && (s'.threads[t].pc == Checked <==> s.threads[t].req.invocation !in s.active)
  {
  }

  lemma OnlySurvivorsReturn(c: Config, s: System, t: ThreadId)
    requires Reachable(c, s) && ReturnStep(s, t).Some?
    ensures var (th, s') := (s.threads[t], ReturnStep(s, t).value);
      && Survives(th.pc.result) && th.req.reuseSandbox
      && IsIdle(s'.floor.idle, s'.floor.workers, th.pc.w)
      && Bucket(s'.floor.idle, Home(th.req)) == Bucket(s.floor.idle, Home(th.req)) + [th.pc.w]
      && s'.threads[t].pc == Unwinding(Returned(th.pc.run, th.pc.result))
  {
    hide Reachable, Survives;
    ReachableUses(c, s);
    assert UseOf(s.threads[t], s.floor.workers, c.settings);
  }

  // ---------------------------------------------------------------- what decides at each turn

  /** Stale workers are destroyed one by one; then the candidate is prepared, or a worker is made. */
  lemma DrainsIff(s: System, t: ThreadId)
    requires DrainStep(s, t).Some?
    ensures var (pc, pc') := (s.threads[t].pc, DrainStep(s, t).value.threads[t].pc);
      if |pc.stale| > 0 then pc' == Destroying(pc.stale[0], ThenDrain(pc.run, pc.stale[1..], pc.candidate))
      else pc' == match pc.candidate case Some(w) => Preparing(pc.run, w) case None => Reserving(pc.run)
  {
  }

  /** An invocation is registered under its id exactly if that is free; else worker and run are given up. */
  lemma RegistersIff(s: System, t: ThreadId)
    requires RegisterStep(s, t).Some?
    ensures var (th, s') := (s.threads[t], RegisterStep(s, t).value);
      var (req, pc) := (th.req, th.pc);
      if req.invocation in s.active then
        s'.active == s.active && s'.threads[t].pc == Dooming(pc.w, ThenAbandon(pc.run))
      else
        && s'.threads[t].pc == Executing(pc.run, pc.w)
        && s'.active == s.active[req.invocation := ActiveRun(req.key.tenant, req.lease, pc.w)]
  {
  }

  /** A worker is made exactly while both limits leave room; then one token is out for it. */
  lemma ReservesIff(c: Config, s: System, t: ThreadId)
    requires ReserveStep(c, s, t).Some?
    ensures var (tenant, pc, s') := (s.threads[t].req.key.tenant, s.threads[t].pc, ReserveStep(c, s, t).value);
      var room := s.floor.quota.live < c.limits.maxLive && Quota.Of(s.floor.quota, tenant) < c.limits.maxLivePerTenant;
      && (s'.threads[t].pc == if room then Creating(pc.run) else Abandoning(pc.run))
      && s'.floor.quota.live == s.floor.quota.live + (if room then 1 else 0)
      && Quota.Of(s'.floor.quota, tenant) == Quota.Of(s.floor.quota, tenant) + if room then 1 else 0
  {
  }

  /** What the backend answers is what will be committed; if it raises, the worker is retired and the run given up. */
  lemma ExecutesIff(s: System, t: ThreadId, result: Option<RunResult>)
    requires ExecuteStep(s, t, result).Some?
    ensures var (pc, s') := (s.threads[t].pc, ExecuteStep(s, t, result).value);
      && (result == None ==> s'.threads[t].pc == Dooming(pc.w, ThenAbandon(pc.run)))
      && (forall r :: result == Some(r) ==> s'.threads[t].pc == Computed(pc.run, pc.w, r))
      && s'.ledger == s.ledger && s'.floor == s.floor
  {
  }

  /**
   * A deletion that raises ends the loop it was in: the stale loop gives up its run and drops the
   * workers it still had, the reaper's loop ends and drops the rest; anywhere else it changes nothing.
   */
  lemma RaiseEndsLoop(s: System, t: ThreadId, raised: bool)
    requires ReturnTokenStep(s, t, raised).Some?
    ensures var (pc, s') := (s.threads[t].pc, ReturnTokenStep(s, t, raised).value);
      match pc.next
      case ThenDrain(run, rest, candidate) =>
        if raised then
          && s'.threads[t].pc == Abandoning(run)
          && forall w :: w in s'.floor.lost <==> w in s.floor.lost || w in rest || candidate == Some(w)
        else s'.threads[t].pc == Draining(run, rest, candidate) && s'.floor.lost == s.floor.lost
      case ThenSweep(rest) =>
        if raised then
          s'.threads[t].pc == Finished(Ended) && forall w :: w in s'.floor.lost <==> w in s.floor.lost || w in rest
        else s'.threads[t].pc == Sweeping(rest) && s'.floor.lost == s.floor.lost
      case ThenAbandon(run) => s'.threads[t].pc == Abandoning(run) && s'.floor.lost == s.floor.lost
      case ThenReturn(run, result) =>
        s'.threads[t].pc == Unwinding(Returned(run, result)) && s'.floor.lost == s.floor.lost
      case ThenEnd(_) => s'.threads[t].pc == Finished(Ended) && s'.floor.lost == s.floor.lost
  {
    hide Quota.Release;
  }

  /** After a restart nothing is running, nothing is in memory, and the tables hold no lapsed claim. */
  lemma RestartClears(s: System)
    ensures var s' := RestartStep(s);
      && s'.threads == map[] && s'.active == map[] && s'.floor == EMPTY_FLOOR && s'.now == s.now
      && (forall r :: !IsRunning(s'.ledger.tables, r))
      && (forall k :: k in s'.ledger.tables.claims <==>
            && k in s.ledger.tables.claims && s.ledger.tables.claims[k].state == RunnerState.Settled
            && (s.ledger.tables.claims[k].expires.Some? ==> s.now < s.ledger.tables.claims[k].expires.value))
      && s'.ledger.started == s.ledger.started && s'.ledger.commits == s.ledger.commits && s'.ledger.orphans == {}
  {
    var reset := ResetRunning(s.ledger.tables, s.now);
    ResetsSpec(s.ledger.tables, s.now);
    ExpiresSpec(reset, s.now);
    hide ResetRunning, PurgeExpired;
  }
}
