/**
 * What becomes of the workers a thread took: back in an idle list, retired with the token
 * returned, or in the hands of the one thread that is deleting them. Workers are dropped only
 * by a stale loop that raises, so never by an invoke that got through it.
 */
module RunnerDisposal {
  import opened Prelude
  import opened RunnerModel
  import opened RunnerState
  import opened WorkerPool
  import opened Runner
  import opened RunnerCustody
  import opened RunnerTokens
  import opened RunnerLedger
  import opened RunnerTheorems

  // ---------------------------------------------------------------- who may have dropped a worker

  /** Where a thread is after raising out of a stale loop. */
  predicate RaisedOut(pc: Pc) {
    || pc.Abandoning?
    || (pc.Unwinding? && pc.outcome.Raised?)
    || (pc.Finished? && (pc.outcome.Raised? || pc.outcome.Ended?))
  }

  predicate DroppedBy(floor: Floor, t: ThreadId, w: WorkerId) {
    w in floor.lost && w in floor.custody && floor.custody[w] == t
  }

  /** A dropped worker lies nowhere, and the thread that took it last has raised. */
  ghost predicate LostOk(threads: map<ThreadId, Thread>, floor: Floor) {
    forall w :: w in floor.lost ==>
      && w in floor.workers && !IsIdle(floor.idle, floor.workers, w)
      && w in floor.custody && floor.custody[w] in threads && RaisedOut(threads[floor.custody[w]].pc)
  }

  /** Custody moves to `t` only, from an idle list only; nothing else becomes idle than what `t` had. */
  predicate Passes(threads: map<ThreadId, Thread>, floor: Floor, t: ThreadId, floor': Floor) {
    && (forall w :: w in floor.custody && w in floor.workers ==>
          && w in floor'.custody
          && (floor'.custody[w] == floor.custody[w]
                || (floor'.custody[w] == t && IsIdle(floor.idle, floor.workers, w))))
    && (forall w :: w in floor.workers ==>
          && w in floor'.workers
          && (IsIdle(floor'.idle, floor'.workers, w) ==>
                IsIdle(floor.idle, floor.workers, w) || w in HeldBefore(threads, t)))
  }

  /** What `t` drops it held, and `t` raises over it. */
  predicate Drops(threads: map<ThreadId, Thread>, floor: Floor, t: ThreadId, pc: Pc, floor': Floor) {
    && floor.lost <= floor'.lost
    && (forall w :: w in floor'.lost && w !in floor.lost ==>
          && w in HeldBefore(threads, t) && w in floor'.workers && !IsIdle(floor'.idle, floor'.workers, w)
          && RaisedOut(pc))
  }

  ghost predicate Disposes(s: System, s': System, t: ThreadId) {
    && t in s'.threads && s'.threads == s.threads[t := s'.threads[t]]
    && (t in s.threads && RaisedOut(s.threads[t].pc) ==> RaisedOut(s'.threads[t].pc))
    && Passes(s.threads, s.floor, t, s'.floor)
    && Drops(s.threads, s.floor, t, s'.threads[t].pc, s'.floor)
  }

  lemma RaisedHoldsNothing(pc: Pc)
    requires RaisedOut(pc)
    ensures Held(pc) == []
  {
  }

  lemma LostKept(s: System, s': System, t: ThreadId)
    requires CustodyOk(s.threads, s.floor) && LostOk(s.threads, s.floor) && Disposes(s, s', t)
    ensures LostOk(s'.threads, s'.floor)
  {
    hide Held, IsIdle, Filed, Placed, RaisedOut;
    forall w | w in s'.floor.lost
      ensures w in s'.floor.workers && !IsIdle(s'.floor.idle, s'.floor.workers, w)
      ensures w in s'.floor.custody && s'.floor.custody[w] in s'.threads
      ensures RaisedOut(s'.threads[s'.floor.custody[w]].pc)
    {
      if t in s.threads { assert Custodian(t, s.threads[t], s.floor); }
      if w in s.floor.lost { RaisedHoldsNothing(s.threads[s.floor.custody[w]].pc); }
    }
  }

  // ---------------------------------------------------------------- every step

  predicate SameCustody(floor: Floor, floor': Floor) {
    && floor'.lost == floor.lost && floor'.custody == floor.custody && floor'.idle == floor.idle
    && floor.workers.Keys == floor'.workers.Keys
    && forall w :: w in floor.workers ==> floor'.workers[w].home == floor.workers[w].home
  }

  lemma SameCustodyPasses(threads: map<ThreadId, Thread>, floor: Floor, t: ThreadId, pc: Pc, floor': Floor)
    requires SameCustody(floor, floor')
    ensures Passes(threads, floor, t, floor') && Drops(threads, floor, t, pc, floor')
  {
  }

  predicate AsideStep(step: Step) {
    step.Admit? || step.ReserveLive? || step.CreateRaises? || step.Cancel? || step.MarkDestroyed?
  }

  lemma StartDisposes(c: Config, s: System, step: Step)
    requires (step.Admit? || step.Cancel?) && Apply(c, s, step).Some?
    ensures Disposes(s, Apply(c, s, step).value, step.t)
  {
    hide AfterRetiring, Passes, Drops, Quota.Reserve, Quota.Release;
    var s' := Apply(c, s, step).value;
    SameCustodyPasses(s.threads, s.floor, step.t, s'.threads[step.t].pc, s'.floor);
  }

  lemma TokenDisposes(c: Config, s: System, step: Step)
    requires (step.ReserveLive? || step.CreateRaises? || step.MarkDestroyed?) && Apply(c, s, step).Some?
    ensures Disposes(s, Apply(c, s, step).value, step.t)
  {
    hide AfterRetiring, Passes, Drops, Quota.Reserve, Quota.Release;
    var s' := Apply(c, s, step).value;
    SameCustodyPasses(s.threads, s.floor, step.t, s'.threads[step.t].pc, s'.floor);
  }

  lemma AsideDisposes(c: Config, s: System, step: Step)
    requires AsideStep(step) && Apply(c, s, step).Some?
    ensures Disposes(s, Apply(c, s, step).value, step.t)
  {
    hide Apply, Disposes;
    if step.Admit? || step.Cancel? { StartDisposes(c, s, step); }
    else { TokenDisposes(c, s, step); }
  }

  /** Only abandoning and unwinding move a thread that has raised. */
  lemma RaisedStays(c: Config, s: System, step: Step)
    requires SilentStep(step) && Apply(c, s, step).Some? && step.t in s.threads && RaisedOut(s.threads[step.t].pc)
    ensures RaisedOut(Apply(c, s, step).value.threads[step.t].pc)
  {
    hide Abandon, BeginLedger, FinishLedger, AfterDrain, AfterSweep, AfterUse, KeepsSandbox;
  }

  lemma SilentDisposes(c: Config, s: System, step: Step)
    requires SilentStep(step) && Apply(c, s, step).Some?
    ensures Disposes(s, Apply(c, s, step).value, step.t)
  {
    hide Apply, Passes, Drops, RaisedOut;
    SilentMoves(c, s, step);
    var s' := Apply(c, s, step).value;
    SameCustodyPasses(s.threads, s.floor, step.t, s'.threads[step.t].pc, s'.floor);
    if RaisedOut(s.threads[step.t].pc) { RaisedStays(c, s, step); }
  }

  lemma PopDisposes(c: Config, s: System, t: ThreadId)
    requires CustodyOk(s.threads, s.floor) && PopStep(c, s, t).Some?
    ensures Disposes(s, PopStep(c, s, t).value, t)
  {
    hide Scan, Bucket, Store, Popped;
    var home := Home(s.threads[t].req);
    PopKeeps(s.floor.idle, s.floor.workers, home, s.threads[t].req.key.release, s.now, c.settings);
  }

  lemma CreateDisposes(s: System, t: ThreadId, w: WorkerId)
    requires CreateStep(s, t, w).Some?
    ensures Disposes(s, CreateStep(s, t, w).value, t)
  {
  }

  lemma ReturnDisposes(s: System, t: ThreadId)
    requires CustodyOk(s.threads, s.floor) && ReturnStep(s, t).Some?
    ensures Disposes(s, ReturnStep(s, t).value, t)
  {
    var w := s.threads[t].pc.w;
    assert Custodian(t, s.threads[t], s.floor);
    assert s.threads[t].pc.Keeping? && w in Held(s.threads[t].pc);
    AppendKeeps(s.floor.idle, s.floor.workers, w);
  }

  lemma ReturnTokenDisposes(s: System, t: ThreadId, raised: bool)
    requires CustodyOk(s.threads, s.floor) && ReturnTokenStep(s, t, raised).Some?
    ensures Disposes(s, ReturnTokenStep(s, t, raised).value, t)
  {
    hide IsIdle, Filed, Quota.Release, Placed;
    var pc := s.threads[t].pc;
    assert Custodian(t, s.threads[t], s.floor);
    DroppedWereHeld(pc.w, pc.next, raised);
  }

  lemma DroppedWereHeld(w: WorkerId, next: Then, raised: bool)
    ensures forall x :: x in Dropped(next, raised) ==> x in Retiring(w, next)
    ensures Dropped(next, raised) != [] ==> RaisedOut(AfterRetiring(next, raised))
  {
  }

  lemma ReapDisposes(c: Config, s: System, t: ThreadId, stale: seq<WorkerId>)
    requires CustodyOk(s.threads, s.floor) && ReapStep(c, s, t, stale).Some?
    ensures Disposes(s, ReapStep(c, s, t, stale).value, t)
  {
    hide Swept;
    SweepKeeps(stale, s.floor.idle, s.floor.workers, s.now, c.settings);
  }

  lemma StepDisposes(c: Config, s: System, step: Step)
    requires CustodyOk(s.threads, s.floor) && Apply(c, s, step).Some? && HasThread(step)
    ensures Disposes(s, Apply(c, s, step).value, step.t)
  {
    hide CustodyOk, Disposes, PopStep, CreateStep, ReturnStep, ReturnTokenStep, ReapStep;
    if step.Pop? { PopDisposes(c, s, step.t); }
    else if step.Create? { CreateDisposes(s, step.t, step.w); }
    else if step.Return? { ReturnDisposes(s, step.t); }
    else if step.ReturnToken? { ReturnTokenDisposes(s, step.t, step.raised); }
    else if step.Reap? { ReapDisposes(c, s, step.t, step.stale); }
    else if SilentStep(step) { SilentDisposes(c, s, step); }
    else { AsideDisposes(c, s, step); }
  }

  lemma StepKeepsLost(c: Config, s: System, step: Step)
    requires CustodyOk(s.threads, s.floor) && LostOk(s.threads, s.floor) && Apply(c, s, step).Some?
    ensures var s' := Apply(c, s, step).value; LostOk(s'.threads, s'.floor)
  {
    hide CustodyOk, LostOk, Disposes;
    if HasThread(step) {
      hide Apply;
      StepDisposes(c, s, step);
      LostKept(s, Apply(c, s, step).value, step.t);
    } else if step.Restart? {
      NothingLost();
    } else {
      MaintenanceAside(c, s, step);
    }
  }

  lemma NothingLost()
    ensures LostOk(map[], EMPTY_FLOOR)
  {
  }

  lemma {:induction false} RunKeepsLost(c: Config, s: System, steps: seq<Step>)
    requires Inv(c, s) && LostOk(s.threads, s.floor) && Exec(c, s, steps).Some?
    ensures var s' := Exec(c, s, steps).value; LostOk(s'.threads, s'.floor)
    decreases |steps|
  {
    hide Apply, LostOk, BooksOk, DeletionOk, AliasesOk, TokensOk, CustodyOk;
    if steps != [] {
      StepKeepsLost(c, s, steps[0]);
      StepInv(c, s, steps[0]);
      hide Inv;
      RunKeepsLost(c, Apply(c, s, steps[0]).value, steps[1..]);
    }
  }

  lemma ReachableLost(c: Config, s: System)
    requires Reachable(c, s)
    ensures LostOk(s.threads, s.floor)
  {
    hide Inv, LostOk;
    var steps :| Exec(c, INITIAL, steps) == Some(s);
    InitiallyInv(c);
    NothingLost();
    RunKeepsLost(c, INITIAL, steps);
  }

  // ---------------------------------------------------------------- where a finished thread's workers are

  predicate Deletes(s: System, u: ThreadId, w: WorkerId) {
    u in s.threads && s.threads[u].pc.Deleting? && s.threads[u].pc.w == w
  }

  /** Idle, retired with its token returned, or being deleted by exactly one thread, which is not `t`. */
  ghost predicate Settled(s: System, t: ThreadId, w: WorkerId) {
    && w in s.floor.workers
    && (|| IsIdle(s.floor.idle, s.floor.workers, w)
        || (s.floor.workers[w].destroyed && w in s.floor.retired)
        || (s.floor.workers[w].destroyed && exists u :: u != t && Deletes(s, u, w) && forall v ::
              Deletes(s, v, w) ==> v == u))
  }

  /**
   * In every reachable state, whatever else is running: every worker a finished invoke, cancel
   * or reap took and nobody took since is settled, or was dropped, and then the thread raised.
   */
  lemma FinishedThreadSettles(c: Config, s: System, t: ThreadId, w: WorkerId)
    requires Reachable(c, s) && t in s.threads && s.threads[t].pc.Finished?
    requires w in s.floor.workers && w in s.floor.custody && s.floor.custody[w] == t
    ensures Settled(s, t, w) || (DroppedBy(s.floor, t, w) && RaisedOut(s.threads[t].pc))
  {
    hide Reachable, BooksOk, AliasesOk, TokensOk, IsIdle, Filed;
    ReachableInv(c, s);
    ReachableLost(c, s);
    assert Placed(w, s.threads, s.floor);
    if s.floor.workers[w].destroyed && w !in s.floor.retired {
      hide CustodyOk, LostOk;
      OneDeleter(s, w);
    }
  }

  /** A destroyed worker whose token is still out has exactly one thread deleting it. */
  lemma OneDeleter(s: System, w: WorkerId)
    requires DeletionOk(s.threads, s.floor) && w in s.floor.workers && s.floor.workers[w].destroyed
    requires w !in s.floor.retired
    ensures exists u :: Deletes(s, u, w) && forall v :: Deletes(s, v, w) ==> v == u
  {
    var u := s.floor.deleter[w];
    assert Deletes(s, u, w);
  }

  /** An invoke that returned its own result, or only replayed one, dropped nothing. */
  lemma ReturnedDropsNothing(c: Config, s: System, t: ThreadId, w: WorkerId)
    requires Reachable(c, s) && t in s.threads && s.threads[t].pc.Finished?
    requires !s.threads[t].pc.outcome.Raised? && !s.threads[t].pc.outcome.Ended?
    ensures !DroppedBy(s.floor, t, w)
  {
    hide Reachable;
    ReachableLost(c, s);
  }

  // ---------------------------------------------------------------- an invoke that got through its stale loop

  /** The run a thread works for or has worked for; a replayed result is not its own. */
  function RunOf(pc: Pc): Option<RunId> {
    if Pending(pc).Some? then Pending(pc)
    else
      var answer := Answer(pc);
      if answer.Some? && (answer.value.Returned? || answer.value.Raised?) then Some(answer.value.run) else None
  }

  predicate Retires(next: Then) {
    next.ThenAbandon? || next.ThenReturn?
  }

  /** Past the stale loop of acquire; `Holding` is where acquire has returned a worker. */
  predicate ThroughLoop(pc: Pc) {
    || pc.Preparing? || pc.Reserving? || pc.Creating? || pc.Holding? || pc.Executing? || pc.Computed? || pc.Persisted?
    || pc.Keeping?
    || ((pc.Dooming? || pc.Destroying? || pc.Deleting?) && Retires(pc.next))
  }

  predicate PastLoop(pc: Pc) {
    ThroughLoop(pc) || pc.Abandoning? || pc.Unwinding? || pc.Finished?
  }

  /** If `t` still is the invoke of this run, it is past its loop and has dropped nothing. */
  ghost predicate KeptAll(s: System, t: ThreadId, run: RunId) {
    && run in s.ledger.started
    && (t in s.threads && RunOf(s.threads[t].pc) == Some(run) ==>
          PastLoop(s.threads[t].pc) && forall w :: !DroppedBy(s.floor, t, w))
  }

  lemma OfflineRun(s: System, s': System, t: ThreadId, run: RunId)
    requires Offline(s, s', t) && RunOf(s'.threads[t].pc) == Some(run)
    ensures t in s.threads && RunOf(s.threads[t].pc) == Some(run)
  {
    hide Pending, Answer;
  }

  /** A run that was issued before the step is never taken up by another thread. */
  lemma RunStays(c: Config, s: System, step: Step, run: RunId)
    requires HasThread(step) && Apply(c, s, step).Some? && run in s.ledger.started
    requires step.t in Apply(c, s, step).value.threads && RunOf(Apply(c, s, step).value.threads[step.t].pc) == Some(run)
    ensures step.t in s.threads && RunOf(s.threads[step.t].pc) == Some(run)
  {
    if DatabaseStep(step) {
      hide Begin, Finish, Abandon;
    } else {
      hide Apply, Offline, RunOf;
      OfflineMoves(c, s, step);
      OfflineRun(s, Apply(c, s, step).value, step.t, run);
    }
  }

  lemma RetiresCleanly(next: Then, raised: bool)
    requires Retires(next)
    ensures PastLoop(AfterRetiring(next, raised)) && Dropped(next, raised) == []
  {
  }

  predicate UseStep(step: Step) {
    step.Prepare? || step.ReserveLive? || step.Create? || step.CreateRaises? || step.Register? || step.Execute?
  }

  lemma WarmStaysPast(c: Config, s: System, step: Step)
    requires (step.Prepare? || step.Register? || step.Execute?) && Apply(c, s, step).Some? && step.t in s.threads
    requires PastLoop(s.threads[step.t].pc)
    ensures var s' := Apply(c, s, step).value;
      step.t in s'.threads && PastLoop(s'.threads[step.t].pc) && s'.floor.lost == s.floor.lost
  {
    hide Quota.Reserve, Quota.Release;
  }

  lemma CreateStaysPast(c: Config, s: System, step: Step)
    requires (step.ReserveLive? || step.Create? || step.CreateRaises?) && Apply(c, s, step).Some? && step.t in s.threads
    requires PastLoop(s.threads[step.t].pc)
    ensures var s' := Apply(c, s, step).value;
      step.t in s'.threads && PastLoop(s'.threads[step.t].pc) && s'.floor.lost == s.floor.lost
  {
    hide Quota.Reserve, Quota.Release;
  }

  lemma UseStaysPast(c: Config, s: System, step: Step)
    requires UseStep(step) && Apply(c, s, step).Some? && step.t in s.threads && PastLoop(s.threads[step.t].pc)
    ensures var s' := Apply(c, s, step).value;
      step.t in s'.threads && PastLoop(s'.threads[step.t].pc) && s'.floor.lost == s.floor.lost
  {
    hide Apply, PastLoop;
    if step.Prepare? || step.Register? || step.Execute? { WarmStaysPast(c, s, step); }
    else { CreateStaysPast(c, s, step); }
  }

  predicate CloseStep(step: Step) {
    step.FinishRun? || step.FinishRaises? || step.Retire? || step.Return? || step.AbandonRun? || step.AbandonRaises?
      || step.Unwind?
  }

  lemma FinishStaysPast(c: Config, s: System, step: Step)
    requires (step.FinishRun? || step.FinishRaises? || step.Retire?) && Apply(c, s, step).Some? && step.t in s.threads
    requires PastLoop(s.threads[step.t].pc)
    ensures var s' := Apply(c, s, step).value;
      step.t in s'.threads && PastLoop(s'.threads[step.t].pc) && s'.floor.lost == s.floor.lost
  {
    hide FinishLedger, Abandon, KeepsSandbox;
  }

  lemma LeaveStaysPast(c: Config, s: System, step: Step)
    requires (step.Return? || step.AbandonRun? || step.AbandonRaises? || step.Unwind?) && Apply(c, s, step).Some?
    requires step.t in s.threads && PastLoop(s.threads[step.t].pc)
    ensures var s' := Apply(c, s, step).value;
      step.t in s'.threads && PastLoop(s'.threads[step.t].pc) && s'.floor.lost == s.floor.lost
  {
    hide FinishLedger, Abandon, KeepsSandbox;
  }

  lemma CloseStaysPast(c: Config, s: System, step: Step)
    requires CloseStep(step) && Apply(c, s, step).Some? && step.t in s.threads && PastLoop(s.threads[step.t].pc)
    ensures var s' := Apply(c, s, step).value;
      step.t in s'.threads && PastLoop(s'.threads[step.t].pc) && s'.floor.lost == s.floor.lost
  {
    hide Apply, PastLoop;
    if step.FinishRun? || step.FinishRaises? || step.Retire? { FinishStaysPast(c, s, step); }
    else { LeaveStaysPast(c, s, step); }
  }

  lemma RetireStaysPast(c: Config, s: System, step: Step)
    requires RetireStepOf(step) && Apply(c, s, step).Some? && step.t in s.threads && PastLoop(s.threads[step.t].pc)
    ensures var s' := Apply(c, s, step).value;
      step.t in s'.threads && PastLoop(s'.threads[step.t].pc) && s'.floor.lost == s.floor.lost
  {
    hide AfterRetiring, Dropped, Quota.Release;
    RetiresCleanly(s.threads[step.t].pc.next, step.ReturnToken? && step.raised);
  }

  predicate BeforeStep(step: Step) {
    step.CheckActive? || step.BeginRun? || step.BeginRaises?
  }

  lemma BeforeIsEarlier(c: Config, s: System, step: Step)
    requires BeforeStep(step) && Apply(c, s, step).Some? && step.t in s.threads
    ensures !PastLoop(s.threads[step.t].pc)
  {
    hide BeginLedger;
  }

  lemma LoopIsEarlier(c: Config, s: System, step: Step)
    requires (step.Pop? || step.Drain? || step.Sweep?) && Apply(c, s, step).Some? && step.t in s.threads
    ensures !PastLoop(s.threads[step.t].pc)
  {
    hide Scan, AfterDrain, AfterSweep;
  }

  /** The other steps belong to threads that are not past their loop, or not yet there. */
  lemma OthersAreEarlier(c: Config, s: System, step: Step)
    requires HasThread(step) && !UseStep(step) && !CloseStep(step) && !RetireStepOf(step)
    requires Apply(c, s, step).Some? && step.t in s.threads
    ensures !PastLoop(s.threads[step.t].pc)
  {
    if BeforeStep(step) { hide Apply; BeforeIsEarlier(c, s, step); }
    else if step.Pop? || step.Drain? || step.Sweep? { hide Apply; LoopIsEarlier(c, s, step); }
  }

  /** Past its loop a thread stays past it and drops nothing, whatever the backend raises. */
  lemma StaysPast(c: Config, s: System, step: Step)
    requires HasThread(step) && Apply(c, s, step).Some? && step.t in s.threads && PastLoop(s.threads[step.t].pc)
    ensures var s' := Apply(c, s, step).value;
      step.t in s'.threads && PastLoop(s'.threads[step.t].pc) && s'.floor.lost == s.floor.lost
  {
    if UseStep(step) { hide Apply; UseStaysPast(c, s, step); }
    else if CloseStep(step) { hide Apply; CloseStaysPast(c, s, step); }
    else if RetireStepOf(step) { hide Apply; RetireStaysPast(c, s, step); }
    else { hide Apply, PastLoop; OthersAreEarlier(c, s, step); }
  }

  /** No step of another thread makes `t` the one that dropped a worker. */
  lemma OthersDrop(s: System, s': System, u: ThreadId, t: ThreadId, w: WorkerId)
    requires CustodyOk(s.threads, s.floor) && LostOk(s.threads, s.floor) && Disposes(s, s', u) && u != t
    requires DroppedBy(s'.floor, t, w)
    ensures DroppedBy(s.floor, t, w)
  {
    hide Held, IsIdle, Filed, Placed, RaisedOut;
    if u in s.threads { assert Custodian(u, s.threads[u], s.floor); }
  }

  lemma OwnDrop(s: System, s': System, t: ThreadId, w: WorkerId)
    requires LostOk(s.threads, s.floor) && Disposes(s, s', t) && s'.floor.lost == s.floor.lost
    requires DroppedBy(s'.floor, t, w)
    ensures DroppedBy(s.floor, t, w)
  {
    hide IsIdle, RaisedOut;
  }

  lemma StepKeepsAll(c: Config, s: System, step: Step, t: ThreadId, run: RunId)
    requires Inv(c, s) && LostOk(s.threads, s.floor) && KeptAll(s, t, run) && Apply(c, s, step).Some?
    ensures KeptAll(Apply(c, s, step).value, t, run)
  {
    hide BooksOk, DeletionOk, AliasesOk, TokensOk, CustodyOk, LostOk, Disposes, RunOf, PastLoop, DroppedBy;
    StepLater(c, s, step);
    var s' := Apply(c, s, step).value;
    if !HasThread(step) {
      if !step.Restart? { MaintenanceAside(c, s, step); }
    } else {
      hide Apply;
      StepDisposes(c, s, step);
      DisposesOne(s, s', step.t);
      if t in s'.threads && RunOf(s'.threads[t].pc) == Some(run) {
        if step.t == t {
          RunStays(c, s, step, run);
          StaysPast(c, s, step);
        }
        forall w ensures !DroppedBy(s'.floor, t, w) {
          if DroppedBy(s'.floor, t, w) {
            if step.t == t { OwnDrop(s, s', t, w); } else { OthersDrop(s, s', step.t, t, w); }
          }
        }
      }
    }
  }

  lemma DisposesOne(s: System, s': System, t: ThreadId)
    requires Disposes(s, s', t)
    ensures s'.threads == s.threads[t := s'.threads[t]]
  {
  }

  lemma {:induction false} RunKeepsAll(c: Config, s: System, steps: seq<Step>, t: ThreadId, run: RunId)
    requires Inv(c, s) && LostOk(s.threads, s.floor) && KeptAll(s, t, run) && Exec(c, s, steps).Some?
    ensures KeptAll(Exec(c, s, steps).value, t, run)
    decreases |steps|
  {
    hide Apply, LostOk, BooksOk, DeletionOk, AliasesOk, TokensOk, CustodyOk, KeptAll;
    if steps != [] {
      StepKeepsAll(c, s, steps[0], t, run);
      StepKeepsLost(c, s, steps[0]);
      StepInv(c, s, steps[0]);
      hide Inv;
      RunKeepsAll(c, Apply(c, s, steps[0]).value, steps[1..], t, run);
    }
  }

  /** A thread that has not raised has dropped nothing, and its run was issued. */
  lemma ThroughLoopKeptAll(c: Config, s: System, t: ThreadId, run: RunId)
    requires Inv(c, s) && LostOk(s.threads, s.floor) && Invoking(s, t) && ThroughLoop(s.threads[t].pc)
    requires RunOf(s.threads[t].pc) == Some(run)
    ensures KeptAll(s, t, run)
  {
    hide CustodyOk, DeletionOk, AliasesOk, TokensOk, LedgerOk;
    assert ThreadOk(t, s.threads[t], s.ledger);
  }

  /**
   * An invoke that got through its stale loop leaves nothing behind, on any schedule, whatever the
   * backend's destroy raises and whatever else is running: when it is finished, its run is over
   * (unless abandon_run itself failed), and every worker it took and nobody took since is idle
   * again, retired with its token returned, or being deleted by exactly one other thread.
   */
  lemma InvokeLeavesNothingBehind(c: Config, s: System, steps: seq<Step>, t: ThreadId, run: RunId, w: WorkerId)
    requires Reachable(c, s) && Invoking(s, t) && ThroughLoop(s.threads[t].pc) && RunOf(s.threads[t].pc) == Some(run)
    requires Exec(c, s, steps).Some?
    requires var s' := Exec(c, s, steps).value;
      && Invoking(s', t) && s'.threads[t].pc.Finished? && RunOf(s'.threads[t].pc) == Some(run)
      && w in s'.floor.workers && w in s'.floor.custody && s'.floor.custody[w] == t
    ensures var s' := Exec(c, s, steps).value;
      Settled(s', t, w) && (run in s'.ledger.orphans || !IsRunning(s'.ledger.tables, run))
  {
    hide Inv, LostOk, Settled, Reachable, DroppedBy, PastLoop, ThroughLoop, Exec, Apply;
    ReachableInv(c, s);
    ReachableLost(c, s);
    ThroughLoopKeptAll(c, s, t, run);
    RunKeepsAll(c, s, steps, t, run);
    var s' := Exec(c, s, steps).value;
    ReachesOn(c, s, steps);
    FinishedThreadSettles(c, s', t, w);
    FinishedRunIsOver(c, s', t);
  }

  lemma ReachesOn(c: Config, s: System, steps: seq<Step>)
    requires Reachable(c, s) && Exec(c, s, steps).Some?
    ensures Reachable(c, Exec(c, s, steps).value)
  {
    hide Apply;
    var before :| Exec(c, INITIAL, before) == Some(s);
    ExecJoins(c, INITIAL, before, steps);
  }

  lemma {:induction false} ExecJoins(c: Config, s: System, first: seq<Step>, rest: seq<Step>)
    requires Exec(c, s, first).Some?
    ensures Exec(c, s, first + rest) == Exec(c, Exec(c, s, first).value, rest)
    decreases |first|
  {
    hide Apply;
    if first == [] {
      assert first + rest == rest;
    } else {
      assert (first + rest)[1..] == first[1..] + rest;
      ExecJoins(c, Apply(c, s, first[0]).value, first[1..], rest);
    }
  }
}
