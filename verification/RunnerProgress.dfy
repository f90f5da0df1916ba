/**
 * Every thread gets through: whatever the others do, its next regular step is enabled,
 * and each of its own steps brings it strictly closer to its end.
 */
module RunnerProgress {
  import opened Prelude
  import opened RunnerModel
  import opened RunnerState
  import opened WorkerPool
  import opened Runner
  import opened RunnerCustody
  import opened RunnerTokens
  import opened RunnerTheorems
  import RunnerLedger
  import Quota

  // ---------------------------------------------------------------- which thread can be where

  predicate ServiceNext(next: Then) {
    next.ThenSweep? || next.ThenEnd?
  }

  predicate Shaped(th: Thread) {
    match th.pc
    case Dooming(_, next) => th.Service? <==> ServiceNext(next)
    case Destroying(_, next) => th.Service? <==> ServiceNext(next)
    case Deleting(_, next) => th.Service? <==> ServiceNext(next)
    case Sweeping(_) => th.Service?
    case Finished(_) => true
    case _ => th.Invoke?
  }

  ghost predicate ShapesOk(s: System) {
    forall t :: t in s.threads ==> Shaped(s.threads[t])
  }

  /** The thread a step belongs to moves; every other thread stays where it is. */
  ghost predicate MovesOnly(s: System, s': System, t: ThreadId) {
    t in s'.threads && s'.threads == s.threads[t := s'.threads[t]]
      && (t in s.threads ==> s'.threads[t] == s.threads[t].(pc := s'.threads[t].pc))
  }

  predicate StartsThread(step: Step) {
    step.Admit? || step.Cancel? || step.Reap?
  }

  // ---------------------------------------------------------------- how far a thread still has to go

  datatype Distance = Distance(phase: nat, queue: nat, stage: nat)

  predicate Closer(d: Distance, e: Distance) {
    d.phase < e.phase || (d.phase == e.phase && (d.queue < e.queue || (d.queue == e.queue && d.stage < e.stage)))
  }

  function Retirement(next: Then, stage: nat): Distance {
    match next
    case ThenDrain(_, rest, _) => Distance(17, |rest|, stage)
    case ThenSweep(rest) => Distance(17, |rest|, stage)
    case _ => Distance(9, 0, stage)
  }

  function Remaining(pc: Pc): Distance {
    match pc
    case Admitted => Distance(20, 0, 0)
    case Checked => Distance(19, 0, 0)
    case Begun(_) => Distance(18, 0, 0)
    case Draining(_, stale, _) => Distance(17, |stale|, 0)
    case Sweeping(stale) => Distance(17, |stale|, 0)
    case Preparing(_, _) => Distance(16, 0, 0)
    case Reserving(_) => Distance(16, 0, 0)
    case Creating(_) => Distance(15, 0, 0)
    case Holding(_, _) => Distance(14, 0, 0)
    case Executing(_, _) => Distance(13, 0, 0)
    case Computed(_, _, _) => Distance(12, 0, 0)
    case Persisted(_, _, _) => Distance(11, 0, 0)
    case Keeping(_, _, _) => Distance(10, 0, 0)
    case Dooming(_, next) => Retirement(next, 3)
    case Destroying(_, next) => Retirement(next, 2)
    case Deleting(_, next) => Retirement(next, 1)
    case Abandoning(_) => Distance(8, 0, 0)
    case Unwinding(_) => Distance(7, 0, 0)
    case Finished(_) => Distance(0, 0, 0)
  }

  /** A thread step: shape kept, distance strictly smaller. */
  ghost predicate Advances(th: Thread, pc: Pc) {
    && Closer(Remaining(pc), Remaining(th.pc))
    && (Shaped(th) ==> Shaped(th.(pc := pc)))
  }

  lemma RetiringAdvances(th: Thread, w: WorkerId, next: Then, raised: bool)
    requires th.pc == Destroying(w, next) || th.pc == Deleting(w, next)
    ensures Advances(th, AfterRetiring(next, raised))
  {
  }

  lemma BeginAdvances(th: Thread, ledger: Ledger, t: ThreadId, clock: Time, now: Time, run: RunId)
    requires th.Invoke? && th.pc.Checked?
    ensures Advances(th, BeginLedger(ledger, th.req, t, clock, now, run).0)
  {
    hide Begin;
  }

  predicate EarlyStep(step: Step) {
    || step.CheckActive? || step.BeginRun? || step.BeginRaises? || step.Pop? || step.Drain? || step.Prepare?
  }

  predicate MiddleStep(step: Step) {
    || step.ReserveLive? || step.Create? || step.CreateRaises? || step.Register? || step.Execute? || step.FinishRun?
  }

  predicate LateStep(step: Step) {
    step.FinishRaises? || step.Retire? || step.Return? || step.AbandonRun? || step.AbandonRaises?
  }

  lemma ClaimAdvances(c: Config, s: System, step: Step)
    requires (step.CheckActive? || step.BeginRun? || step.BeginRaises?) && Apply(c, s, step).Some?
    ensures MovesOnly(s, Apply(c, s, step).value, step.t) && step.t in s.threads
    ensures Advances(s.threads[step.t], Apply(c, s, step).value.threads[step.t].pc)
  {
    hide BeginLedger;
    if step.BeginRun? { BeginAdvances(s.threads[step.t], s.ledger, step.t, step.clock, s.now, step.run); }
  }

  lemma WarmAdvances(c: Config, s: System, step: Step)
    requires (step.Pop? || step.Drain? || step.Prepare?) && Apply(c, s, step).Some?
    ensures MovesOnly(s, Apply(c, s, step).value, step.t) && step.t in s.threads
    ensures Advances(s.threads[step.t], Apply(c, s, step).value.threads[step.t].pc)
  {
    hide Scan, PopFloor, UpdateWorker;
  }

  lemma EarlyAdvances(c: Config, s: System, step: Step)
    requires EarlyStep(step) && Apply(c, s, step).Some?
    ensures MovesOnly(s, Apply(c, s, step).value, step.t) && step.t in s.threads
    ensures Advances(s.threads[step.t], Apply(c, s, step).value.threads[step.t].pc)
  {
    hide Apply, Advances, MovesOnly;
    if step.CheckActive? || step.BeginRun? || step.BeginRaises? { ClaimAdvances(c, s, step); }
    else { WarmAdvances(c, s, step); }
  }

  lemma CreateAdvances(c: Config, s: System, step: Step)
    requires (step.ReserveLive? || step.Create? || step.CreateRaises?) && Apply(c, s, step).Some?
    ensures MovesOnly(s, Apply(c, s, step).value, step.t) && step.t in s.threads
    ensures Advances(s.threads[step.t], Apply(c, s, step).value.threads[step.t].pc)
  {
    hide CreateFloor, Quota.Reserve, Quota.Release;
  }

  lemma ExecuteAdvances(c: Config, s: System, step: Step)
    requires (step.Register? || step.Execute? || step.FinishRun?) && Apply(c, s, step).Some?
    ensures MovesOnly(s, Apply(c, s, step).value, step.t) && step.t in s.threads
    ensures Advances(s.threads[step.t], Apply(c, s, step).value.threads[step.t].pc)
  {
    hide FinishLedger;
  }

  lemma MiddleAdvances(c: Config, s: System, step: Step)
    requires MiddleStep(step) && Apply(c, s, step).Some?
    ensures MovesOnly(s, Apply(c, s, step).value, step.t) && step.t in s.threads
    ensures Advances(s.threads[step.t], Apply(c, s, step).value.threads[step.t].pc)
  {
    hide Apply, Advances, MovesOnly;
    if step.ReserveLive? || step.Create? || step.CreateRaises? { CreateAdvances(c, s, step); }
    else { ExecuteAdvances(c, s, step); }
  }

  lemma ReturnAdvances(c: Config, s: System, step: Step)
    requires (step.FinishRaises? || step.Retire? || step.Return?) && Apply(c, s, step).Some?
    ensures MovesOnly(s, Apply(c, s, step).value, step.t) && step.t in s.threads
    ensures Advances(s.threads[step.t], Apply(c, s, step).value.threads[step.t].pc)
  {
    hide KeepsSandbox, ReturnFloor, UpdateWorker;
  }

  lemma AbandonAdvances(c: Config, s: System, step: Step)
    requires (step.AbandonRun? || step.AbandonRaises?) && Apply(c, s, step).Some?
    ensures MovesOnly(s, Apply(c, s, step).value, step.t) && step.t in s.threads
    ensures Advances(s.threads[step.t], Apply(c, s, step).value.threads[step.t].pc)
  {
    hide Abandon;
  }

  lemma LateAdvances(c: Config, s: System, step: Step)
    requires LateStep(step) && Apply(c, s, step).Some?
    ensures MovesOnly(s, Apply(c, s, step).value, step.t) && step.t in s.threads
    ensures Advances(s.threads[step.t], Apply(c, s, step).value.threads[step.t].pc)
  {
    hide Apply, Advances, MovesOnly;
    if step.FinishRaises? || step.Retire? || step.Return? { ReturnAdvances(c, s, step); }
    else { AbandonAdvances(c, s, step); }
  }

  predicate RetiringStep(step: Step) {
    step.MarkUnhealthy? || step.MarkDestroyed? || step.ReturnToken?
  }

  lemma RetireAdvances(c: Config, s: System, step: Step)
    requires RetiringStep(step) && Apply(c, s, step).Some?
    ensures MovesOnly(s, Apply(c, s, step).value, step.t) && step.t in s.threads
    ensures Advances(s.threads[step.t], Apply(c, s, step).value.threads[step.t].pc)
  {
    hide AfterRetiring, MarkFloor, RetireFloor, UpdateWorker, Dropped;
    if step.MarkDestroyed? {
      RetiringAdvances(s.threads[step.t], s.threads[step.t].pc.w, s.threads[step.t].pc.next, false);
    } else if step.ReturnToken? {
      RetiringAdvances(s.threads[step.t], s.threads[step.t].pc.w, s.threads[step.t].pc.next, step.raised);
    }
  }

  lemma EndAdvances(c: Config, s: System, step: Step)
    requires (step.Unwind? || step.Sweep?) && Apply(c, s, step).Some?
    ensures MovesOnly(s, Apply(c, s, step).value, step.t) && step.t in s.threads
    ensures Advances(s.threads[step.t], Apply(c, s, step).value.threads[step.t].pc)
  {
  }

  /** A thread's own step takes it closer to its end and leaves every other thread where it is. */
  lemma OwnStepAdvances(c: Config, s: System, step: Step)
    requires HasThread(step) && !StartsThread(step) && Apply(c, s, step).Some?
    ensures var s' := Apply(c, s, step).value;
      && step.t in s.threads && MovesOnly(s, s', step.t)
      && Closer(Remaining(s'.threads[step.t].pc), Remaining(s.threads[step.t].pc))
      && (Shaped(s.threads[step.t]) ==> Shaped(s'.threads[step.t]))
  {
    hide Apply, Remaining, Closer;
    if EarlyStep(step) { EarlyAdvances(c, s, step); }
    else if MiddleStep(step) { MiddleAdvances(c, s, step); }
    else if LateStep(step) { LateAdvances(c, s, step); }
    else if RetiringStep(step) { RetireAdvances(c, s, step); }
    else { EndAdvances(c, s, step); }
  }

  lemma ShapesKept(c: Config, s: System, step: Step)
    requires ShapesOk(s) && Apply(c, s, step).Some?
    ensures ShapesOk(Apply(c, s, step).value)
  {
    if HasThread(step) && !StartsThread(step) {
      hide Apply, Shaped, Remaining, Closer;
      OwnStepAdvances(c, s, step);
    } else {
      hide SweepFloor, SweepOf, ResetRunning, PurgeExpired, PurgeOldRuns;
    }
  }

  lemma {:induction false} RunShapes(c: Config, s: System, steps: seq<Step>)
    requires ShapesOk(s) && Exec(c, s, steps).Some?
    ensures ShapesOk(Exec(c, s, steps).value)
    decreases |steps|
  {
    hide Apply, ShapesOk;
    if steps != [] {
      ShapesKept(c, s, steps[0]);
      RunShapes(c, Apply(c, s, steps[0]).value, steps[1..]);
    }
  }

  // ---------------------------------------------------------------- never stuck

  /** The regular next step of a thread, given fresh ids and a backend that answers. */
  function Regular(s: System, t: ThreadId, run: RunId, w: WorkerId, result: RunResult): Step
    requires t in s.threads && !s.threads[t].pc.Finished?
  {
    match s.threads[t].pc
    case Admitted => CheckActive(t)
    case Checked => BeginRun(t, s.now, run)
    case Begun(_) => Pop(t)
    case Draining(_, _, _) => Drain(t)
    case Preparing(_, _) => Prepare(t, true)
    case Reserving(_) => ReserveLive(t)
    case Creating(_) => Create(t, w)
    case Holding(_, _) => Register(t)
    case Executing(_, _) => Execute(t, Some(result))
    case Computed(_, _, _) => FinishRun(t, s.now)
    case Persisted(_, _, _) => Retire(t)
    case Keeping(_, _, _) => Return(t)
    case Dooming(_, _) => MarkUnhealthy(t)
    case Destroying(_, _) => MarkDestroyed(t)
    case Deleting(_, _) => ReturnToken(t, false)
    case Abandoning(_) => AbandonRun(t)
    case Unwinding(_) => Unwind(t)
    case Sweeping(_) => Sweep(t)
  }

  predicate NeedsWorker(pc: Pc) {
    pc.Preparing? || pc.Persisted? || pc.Keeping? || pc.Dooming? || pc.Destroying? || pc.Deleting?
  }

  /** The worker a step works on is always still in the table. */
  lemma SubjectKnown(s: System, t: ThreadId)
    requires CustodyOk(s.threads, s.floor) && AliasesOk(s.threads, s.active, s.floor) && t in s.threads
    ensures NeedsWorker(s.threads[t].pc) ==> s.threads[t].pc.w in s.floor.workers
  {
    hide Filed;
    assert Custodian(t, s.threads[t], s.floor);
    if NeedsWorker(s.threads[t].pc) && Cancelling(s.threads[t].pc).None? {
      assert Held(s.threads[t].pc)[0] == s.threads[t].pc.w;
    }
  }

  lemma RegularEnabled(c: Config, s: System, t: ThreadId, run: RunId, w: WorkerId, result: RunResult)
    requires t in s.threads && !s.threads[t].pc.Finished? && Shaped(s.threads[t])
    requires NeedsWorker(s.threads[t].pc) ==> s.threads[t].pc.w in s.floor.workers
    requires run !in s.ledger.started && w !in s.floor.workers
    ensures Apply(c, s, Regular(s, t, run, w, result)).Some?
  {
    hide BeginLedger, FinishLedger, Move, Scan, AfterDrain, AfterSweep, AfterUse, AfterRetiring, KeepsSandbox;
  }

  /** No schedule leads to a thread that cannot go on. */
  lemma NeverStuck(c: Config, steps: seq<Step>, t: ThreadId, run: RunId, w: WorkerId, result: RunResult)
    requires Exec(c, INITIAL, steps).Some?
    requires var s := Exec(c, INITIAL, steps).value;
      t in s.threads && !s.threads[t].pc.Finished? && run !in s.ledger.started && w !in s.floor.workers
    ensures var s := Exec(c, INITIAL, steps).value; Apply(c, s, Regular(s, t, run, w, result)).Some?
  {
    hide Apply, RunnerLedger.BooksOk, CustodyOk, DeletionOk, AliasesOk, TokensOk;
    var s := Exec(c, INITIAL, steps).value;
    InitiallyInv(c);
    RunInv(c, INITIAL, steps);
    RunShapes(c, INITIAL, steps);
    SubjectKnown(s, t);
    RegularEnabled(c, s, t, run, w, result);
  }
}
