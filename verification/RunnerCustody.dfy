/**
 * Who holds which worker. Threads are looked at through a few views of their program
 * counter; a step that changes none of them is silent and keeps everything here.
 */
module RunnerCustody {
  import opened Prelude
  import opened RunnerModel
  import opened WorkerPool
  import opened Runner
  import opened RunnerState
  import Quota

  // ---------------------------------------------------------------- views of a thread

  function HeldNext(next: Then): seq<WorkerId> {
    match next
    case ThenDrain(_, rest, candidate) => rest + Optional(candidate)
    case ThenSweep(rest) => rest
    case _ => []
  }

  function Retiring(w: WorkerId, next: Then): seq<WorkerId> {
    if next.ThenEnd? then [] else [w] + HeldNext(next)
  }

  /** The workers a thread has for itself. A cancel only has an alias. */
  function Held(pc: Pc): seq<WorkerId> {
    match pc
    case Draining(_, stale, candidate) => stale + Optional(candidate)
    case Preparing(_, w) => [w]
    case Holding(_, w) => [w]
    case Executing(_, w) => [w]
    case Computed(_, w, _) => [w]
    case Persisted(_, w, _) => [w]
    case Keeping(_, w, _) => [w]
    case Dooming(w, next) => Retiring(w, next)
    case Destroying(w, next) => Retiring(w, next)
    case Deleting(w, next) => Retiring(w, next)
    case Sweeping(stale) => stale
    case _ => []
  }

  /** The worker whose destroyed flag this thread set and whose token it still owes. */
  function Owed(pc: Pc): Option<WorkerId> {
    if pc.Deleting? then Some(pc.w) else None
  }

  function CancelNext(w: WorkerId, next: Then): Option<(WorkerId, TenantId)> {
    if next.ThenEnd? then Some((w, next.tenant)) else None
  }

  /** The worker a cancel is retiring, and on whose behalf. */
  function Cancelling(pc: Pc): Option<(WorkerId, TenantId)> {
    match pc
    case Dooming(w, next) => CancelNext(w, next)
    case Destroying(w, next) => CancelNext(w, next)
    case Deleting(w, next) => CancelNext(w, next)
    case _ => None
  }

  predicate IsCreating(th: Thread) {
    th.Invoke? && th.pc.Creating?
  }

  // ---------------------------------------------------------------- invariants

  /** A holder's workers are its own, distinct, not idle, and of its tenant, runtime and profile. */
  ghost predicate Custodian(t: ThreadId, th: Thread, floor: Floor) {
    && NoDuplicates(Held(th.pc))
    && (forall w :: w in Held(th.pc) ==>
          && w in floor.workers && !IsIdle(floor.idle, floor.workers, w)
          && w in floor.custody && floor.custody[w] == t
          && (th.Invoke? ==> floor.workers[w].home == Home(th.req)))
  }

  predicate InCustody(threads: map<ThreadId, Thread>, floor: Floor, w: WorkerId) {
    w in floor.custody && floor.custody[w] in threads && w in Held(threads[floor.custody[w]].pc)
  }

  /** A worker that is not destroyed is idle, held, or was dropped by a loop that raised. */
  ghost predicate Placed(w: WorkerId, threads: map<ThreadId, Thread>, floor: Floor)
    requires w in floor.workers
  {
    floor.workers[w].destroyed || IsIdle(floor.idle, floor.workers, w) || w in floor.lost
      || InCustody(threads, floor, w)
  }

  ghost predicate CustodyOk(threads: map<ThreadId, Thread>, floor: Floor) {
    && Filed(floor.idle, floor.workers)
    && (forall t :: t in threads ==> Custodian(t, threads[t], floor))
    && (forall w :: w in floor.workers ==> Placed(w, threads, floor))
  }

  /** The flag is set once per worker; until its token is back, exactly the thread that set it owes it. */
  ghost predicate DeletionOk(threads: map<ThreadId, Thread>, floor: Floor) {
    && NoDuplicates(floor.retired)
    && (forall w :: w in floor.retired ==> w in floor.workers && floor.workers[w].destroyed)
    && (forall t :: t in threads && threads[t].pc.Deleting? ==>
          var w := threads[t].pc.w;
          && w in floor.workers && floor.workers[w].destroyed && w !in floor.retired
          && w in floor.deleter && floor.deleter[w] == t)
    && (forall w :: w in floor.workers && floor.workers[w].destroyed && w !in floor.retired ==>
          w in floor.deleter && floor.deleter[w] in threads && Owed(threads[floor.deleter[w]].pc) == Some(w))
  }

  /** Whatever a cancel can reach belongs to the tenant that cancels. */
  ghost predicate AliasesOk(threads: map<ThreadId, Thread>, active: map<InvocationId, ActiveRun>, floor: Floor) {
    && (forall i :: i in active ==>
          active[i].w in floor.workers && floor.workers[active[i].w].home.tenant == active[i].tenant)
    && (forall t :: t in threads && Cancelling(threads[t].pc).Some? ==>
          var (w, tenant) := Cancelling(threads[t].pc).value;
          w in floor.workers && floor.workers[w].home.tenant == tenant)
  }

  // ---------------------------------------------------------------- silent steps

  predicate SameViews(pc: Pc, pc': Pc) {
    && Held(pc') == Held(pc) && Owed(pc') == Owed(pc) && Cancelling(pc') == Cancelling(pc)
    && (pc'.Creating? <==> pc.Creating?)
  }

  /** Same pool, up to the bookkeeping of its workers. */
  predicate SameFloor(floor: Floor, floor': Floor) {
    && floor' == floor.(workers := floor'.workers)
    && floor.workers.Keys == floor'.workers.Keys
    && forall w :: w in floor.workers ==>
         floor'.workers[w].home == floor.workers[w].home && floor'.workers[w].destroyed == floor.workers[w].destroyed
  }

  predicate ClaimStep(step: Step) {
    step.CheckActive? || step.BeginRun? || step.BeginRaises?
  }

  predicate LeaveStep(step: Step) {
    step.AbandonRun? || step.AbandonRaises? || step.Unwind?
  }

  predicate LoopStep(step: Step) {
    step.Drain? || step.Sweep? || step.MarkUnhealthy?
  }

  predicate WarmStep(step: Step) {
    step.Prepare? || step.Register? || step.Execute?
  }

  predicate ResultStep(step: Step) {
    step.FinishRun? || step.FinishRaises? || step.Retire?
  }

  predicate SilentStep(step: Step) {
    ClaimStep(step) || LeaveStep(step) || LoopStep(step) || WarmStep(step) || ResultStep(step)
  }

  /** The step moved only thread `t`, without changing what it holds, owes, cancels or creates. */
  ghost predicate Silent(s: System, s': System, t: ThreadId) {
    && t in s.threads && t in s'.threads
    && s'.threads == s.threads[t := s.threads[t].(pc := s'.threads[t].pc)]
    && SameViews(s.threads[t].pc, s'.threads[t].pc)
    && SameFloor(s.floor, s'.floor)
  }

  lemma FirstOut(ws: seq<WorkerId>, more: seq<WorkerId>)
    requires ws != []
    ensures [ws[0]] + (ws[1..] + more) == ws + more
    ensures [ws[0]] + ws[1..] == ws
  {
  }

  lemma DrainViews(run: RunId, stale: seq<WorkerId>, candidate: Option<WorkerId>)
    ensures SameViews(Draining(run, stale, candidate), AfterDrain(run, stale, candidate))
  {
    if stale != [] { FirstOut(stale, Optional(candidate)); }
  }

  lemma SweepViews(stale: seq<WorkerId>)
    ensures SameViews(Sweeping(stale), AfterSweep(stale))
  {
    if stale != [] { FirstOut(stale, []); }
  }

  lemma BeginViews(ledger: Ledger, req: Request, t: ThreadId, clock: Time, now: Time, run: RunId)
    ensures SameViews(Checked, BeginLedger(ledger, req, t, clock, now, run).0)
  {
    hide Begin;
  }

  lemma UseViews(run: RunId, w: WorkerId, result: RunResult, worker: Worker, reuse: bool)
    ensures SameViews(Persisted(run, w, result), AfterUse(run, w, result, worker, reuse))
  {
    hide KeepsSandbox;
  }

  lemma ClaimMoves(c: Config, s: System, step: Step)
    requires ClaimStep(step) && Apply(c, s, step).Some?
    ensures Silent(s, Apply(c, s, step).value, step.t)
  {
    hide BeginLedger;
    if step.BeginRun? { BeginViews(s.ledger, s.threads[step.t].req, step.t, step.clock, s.now, step.run); }
  }

  lemma LeaveMoves(c: Config, s: System, step: Step)
    requires LeaveStep(step) && Apply(c, s, step).Some?
    ensures Silent(s, Apply(c, s, step).value, step.t)
  {
    hide Abandon;
  }

  lemma UnhealthyMoves(c: Config, s: System, step: Step)
    requires step.MarkUnhealthy? && Apply(c, s, step).Some?
    ensures Silent(s, Apply(c, s, step).value, step.t)
  {
  }

  lemma StaleMoves(c: Config, s: System, step: Step)
    requires (step.Drain? || step.Sweep?) && Apply(c, s, step).Some?
    ensures Silent(s, Apply(c, s, step).value, step.t)
  {
    hide AfterDrain, AfterSweep;
    var pc := s.threads[step.t].pc;
    if step.Drain? { DrainViews(pc.run, pc.stale, pc.candidate); } else { SweepViews(pc.stale); }
  }

  lemma LoopMoves(c: Config, s: System, step: Step)
    requires LoopStep(step) && Apply(c, s, step).Some?
    ensures Silent(s, Apply(c, s, step).value, step.t)
  {
    hide Apply, Silent;
    if step.MarkUnhealthy? { UnhealthyMoves(c, s, step); }
    else { StaleMoves(c, s, step); }
  }

  lemma PrepareMoves(c: Config, s: System, step: Step)
    requires step.Prepare? && Apply(c, s, step).Some?
    ensures Silent(s, Apply(c, s, step).value, step.t)
  {
  }

  lemma ExecuteMoves(c: Config, s: System, step: Step)
    requires (step.Register? || step.Execute?) && Apply(c, s, step).Some?
    ensures Silent(s, Apply(c, s, step).value, step.t)
  {
  }

  lemma WarmMoves(c: Config, s: System, step: Step)
    requires WarmStep(step) && Apply(c, s, step).Some?
    ensures Silent(s, Apply(c, s, step).value, step.t)
  {
    hide Apply, Silent;
    if step.Prepare? { PrepareMoves(c, s, step); }
    else { ExecuteMoves(c, s, step); }
  }

  lemma FinishMoves(c: Config, s: System, step: Step)
    requires (step.FinishRun? || step.FinishRaises?) && Apply(c, s, step).Some?
    ensures Silent(s, Apply(c, s, step).value, step.t)
  {
    hide FinishLedger;
  }

  lemma RetireMoves(c: Config, s: System, step: Step)
    requires step.Retire? && Apply(c, s, step).Some?
    ensures Silent(s, Apply(c, s, step).value, step.t)
  {
    hide AfterUse, KeepsSandbox;
    var pc := s.threads[step.t].pc;
    UseViews(pc.run, pc.w, pc.result, s.floor.workers[pc.w], s.threads[step.t].req.reuseSandbox);
  }

  lemma ResultMoves(c: Config, s: System, step: Step)
    requires ResultStep(step) && Apply(c, s, step).Some?
    ensures Silent(s, Apply(c, s, step).value, step.t)
  {
    hide Apply, Silent;
    if step.FinishRun? || step.FinishRaises? { FinishMoves(c, s, step); }
    else { RetireMoves(c, s, step); }
  }

  lemma SilentMoves(c: Config, s: System, step: Step)
    requires SilentStep(step) && Apply(c, s, step).Some?
    ensures Silent(s, Apply(c, s, step).value, step.t)
  {
    hide Apply, Silent;
    if ClaimStep(step) { ClaimMoves(c, s, step); }
    else if LeaveStep(step) { LeaveMoves(c, s, step); }
    else if LoopStep(step) { LoopMoves(c, s, step); }
    else if WarmStep(step) { WarmMoves(c, s, step); }
    else { ResultMoves(c, s, step); }
  }

  lemma SilentCustody(s: System, s': System, t: ThreadId)
    requires CustodyOk(s.threads, s.floor) && Silent(s, s', t)
    ensures CustodyOk(s'.threads, s'.floor)
  {
    forall u | u in s'.threads ensures Custodian(u, s'.threads[u], s'.floor) {
      assert Custodian(u, s.threads[u], s.floor);
    }
    forall w | w in s'.floor.workers ensures Placed(w, s'.threads, s'.floor) {
      assert Placed(w, s.threads, s.floor);
    }
  }

  lemma SilentDeletion(s: System, s': System, t: ThreadId)
    requires DeletionOk(s.threads, s.floor) && Silent(s, s', t)
    ensures DeletionOk(s'.threads, s'.floor)
  {
    hide Held, Cancelling;
    assert forall u :: u in s.threads ==> Owed(s'.threads[u].pc) == Owed(s.threads[u].pc);
  }

  /** The active map may shrink, or gain the worker thread `t` holds. */
  lemma SilentAliases(s: System, s': System, t: ThreadId)
    requires CustodyOk(s.threads, s.floor) && AliasesOk(s.threads, s.active, s.floor) && Silent(s, s', t)
    requires forall i :: i in s'.active ==>
      || (i in s.active && s'.active[i] == s.active[i])
      || (s.threads[t].Invoke? && s'.active[i].tenant == s.threads[t].req.key.tenant
            && s'.active[i].w in Held(s.threads[t].pc))
    ensures AliasesOk(s'.threads, s'.active, s'.floor)
  {
    hide Held, Owed;
    assert Custodian(t, s.threads[t], s.floor);
    assert forall u :: u in s.threads ==> Cancelling(s'.threads[u].pc) == Cancelling(s.threads[u].pc);
  }

  lemma SilentActive(c: Config, s: System, step: Step)
    requires SilentStep(step) && Apply(c, s, step).Some?
    ensures var (s', t) := (Apply(c, s, step).value, step.t);
      forall i :: i in s'.active ==>
        || (i in s.active && s'.active[i] == s.active[i])
        || (s.threads[t].Invoke? && s'.active[i].tenant == s.threads[t].req.key.tenant
              && s'.active[i].w in Held(s.threads[t].pc))
  {
    if step.Register? || step.Unwind? {
      hide KeepsSandbox;
    } else {
      hide BeginLedger, FinishLedger, KeepsSandbox, Abandon, AfterDrain, AfterSweep, AfterUse, Held;
    }
  }

  // ---------------------------------------------------------------- steps that hand workers over

  function HeldBefore(threads: map<ThreadId, Thread>, t: ThreadId): seq<WorkerId> {
    if t in threads then Held(threads[t].pc) else []
  }

  /** Workers stay where they were filed and never come back to life. */
  predicate WorkersGrow(floor: Floor, floor': Floor) {
    forall w :: w in floor.workers ==>
      && w in floor'.workers && floor'.workers[w].home == floor.workers[w].home
      && (floor.workers[w].destroyed ==> floor'.workers[w].destroyed)
  }

  /** What thread `t` may hold next: what it held, what was idle, what is new. */
  ghost predicate TakesOver(threads: map<ThreadId, Thread>, floor: Floor, t: ThreadId, th: Thread, floor': Floor) {
    && Custodian(t, th, floor')
    && (forall w :: w in Held(th.pc) && w in floor.workers ==>
          w in HeldBefore(threads, t) || IsIdle(floor.idle, floor.workers, w))
    && (forall w :: w in floor.custody ==>
          w in floor'.custody && (floor'.custody[w] == floor.custody[w] || w in Held(th.pc)))
  }

  predicate Available(threads: map<ThreadId, Thread>, floor: Floor, t: ThreadId, w: WorkerId) {
    w in floor.workers ==> IsIdle(floor.idle, floor.workers, w) || w in HeldBefore(threads, t)
  }

  /** Where the workers may go that thread `t` or an idle list had. */
  ghost predicate HandsOver(threads: map<ThreadId, Thread>, floor: Floor, t: ThreadId, th: Thread, floor': Floor)
    requires WorkersGrow(floor, floor')
  {
    && (forall w :: w in floor.workers && IsIdle(floor'.idle, floor'.workers, w) ==>
          IsIdle(floor.idle, floor.workers, w) || w in HeldBefore(threads, t))
    && floor.lost <= floor'.lost
    && (forall w :: w in floor'.workers && !floor'.workers[w].destroyed && Available(threads, floor, t, w) ==>
          IsIdle(floor'.idle, floor'.workers, w) || w in Held(th.pc) || w in floor'.lost)
  }

  lemma HandOver(threads: map<ThreadId, Thread>, floor: Floor, t: ThreadId, th: Thread, floor': Floor)
    requires CustodyOk(threads, floor) && WorkersGrow(floor, floor') && Filed(floor'.idle, floor'.workers)
    requires TakesOver(threads, floor, t, th, floor') && HandsOver(threads, floor, t, th, floor')
    ensures CustodyOk(threads[t := th], floor')
  {
    hide Held;
    var threads' := threads[t := th];
    forall u | u in threads' ensures Custodian(u, threads'[u], floor') {
      if u != t {
        assert Custodian(u, threads[u], floor);
        if t in threads { assert Custodian(t, threads[t], floor); }
      }
    }
    forall w | w in floor'.workers ensures Placed(w, threads', floor') {
      if w in floor.workers { assert Placed(w, threads, floor); }
    }
  }

  /** What the pop hands to thread `t` was idle under its own key, is no longer, and appears once. */
  predicate HandedBy(floor: Floor, floor': Floor, home: PoolKey, handed: seq<WorkerId>) {
    && NoDuplicates(handed) && floor'.workers == floor.workers
    && forall w :: w in handed ==>
         && w in floor.workers && floor.workers[w].home == home
         && IsIdle(floor.idle, floor.workers, w) && !IsIdle(floor'.idle, floor'.workers, w)
  }

  lemma PopHandsIdle(c: Config, s: System, t: ThreadId)
    requires Filed(s.floor.idle, s.floor.workers) && PopStep(c, s, t).Some?
    ensures t in s.threads && s.threads[t].Invoke? && t in PopStep(c, s, t).value.threads
    ensures var s' := PopStep(c, s, t).value;
      && HandedBy(s.floor, s'.floor, Home(s.threads[t].req), Held(s'.threads[t].pc))
      && s'.threads[t] == s.threads[t].(pc := s'.threads[t].pc) && s'.threads[t].Invoke?
      && s'.floor.workers == s.floor.workers
      && s'.floor.custody == Taken(s.floor.custody, Held(s'.threads[t].pc), t)
  {
    hide Scan, Store, Filed, IsIdle;
    var req := s.threads[t].req;
    PopKeeps(s.floor.idle, s.floor.workers, Home(req), req.key.release, s.now, c.settings);
  }

  lemma HandedIsTaken(threads: map<ThreadId, Thread>, floor: Floor, t: ThreadId, th: Thread, floor': Floor)
    requires th.Invoke? && HandedBy(floor, floor', Home(th.req), Held(th.pc))
    requires floor'.workers == floor.workers && floor'.custody == Taken(floor.custody, Held(th.pc), t)
    ensures TakesOver(threads, floor, t, th, floor')
  {
    hide Held, IsIdle;
  }

  lemma PopTakes(c: Config, s: System, t: ThreadId)
    requires CustodyOk(s.threads, s.floor) && PopStep(c, s, t).Some?
    ensures t in PopStep(c, s, t).value.threads
    ensures var s' := PopStep(c, s, t).value; TakesOver(s.threads, s.floor, t, s'.threads[t], s'.floor)
  {
    hide Held, TakesOver, Taken, HandedBy, Filed, PopStep, Placed, Custodian;
    PopHandsIdle(c, s, t);
    var s' := PopStep(c, s, t).value;
    HandedIsTaken(s.threads, s.floor, t, s'.threads[t], s'.floor);
  }

  lemma PopHands(c: Config, s: System, t: ThreadId)
    requires CustodyOk(s.threads, s.floor) && PopStep(c, s, t).Some?
    ensures var s' := PopStep(c, s, t).value;
      && WorkersGrow(s.floor, s'.floor) && HandsOver(s.threads, s.floor, t, s'.threads[t], s'.floor)
      && Filed(s'.floor.idle, s'.floor.workers)
  {
    hide Scan, Store, Filed, IsIdle;
    var req := s.threads[t].req;
    PopKeeps(s.floor.idle, s.floor.workers, Home(req), req.key.release, s.now, c.settings);
  }

  lemma PopCustody(c: Config, s: System, t: ThreadId)
    requires CustodyOk(s.threads, s.floor) && PopStep(c, s, t).Some?
    ensures var s' := PopStep(c, s, t).value; CustodyOk(s'.threads, s'.floor)
  {
    hide CustodyOk, TakesOver, HandsOver, WorkersGrow, Filed, Scan;
    PopTakes(c, s, t);
    PopHands(c, s, t);
    var s' := PopStep(c, s, t).value;
    HandOver(s.threads, s.floor, t, s'.threads[t], s'.floor);
  }

  /** A new worker is in no list. */
  lemma NewIsNotIdle(floor: Floor, w: WorkerId, worker: Worker)
    requires Filed(floor.idle, floor.workers) && w !in floor.workers
    ensures Filed(floor.idle, floor.workers[w := worker]) && !IsIdle(floor.idle, floor.workers[w := worker], w)
    ensures forall x :: x in floor.workers ==>
        (IsIdle(floor.idle, floor.workers[w := worker], x) <==> IsIdle(floor.idle, floor.workers, x))
  {
    assert forall k :: k in floor.idle ==> w !in floor.idle[k];
  }

  lemma CreateCustody(s: System, t: ThreadId, w: WorkerId)
    requires CustodyOk(s.threads, s.floor) && CreateStep(s, t, w).Some?
    ensures var s' := CreateStep(s, t, w).value; CustodyOk(s'.threads, s'.floor)
  {
    hide Filed, IsIdle, Placed;
    var s' := CreateStep(s, t, w).value;
    NewIsNotIdle(s.floor, w, s'.floor.workers[w]);
    HandOver(s.threads, s.floor, t, s'.threads[t], s'.floor);
  }

  lemma ReturnCustody(s: System, t: ThreadId)
    requires CustodyOk(s.threads, s.floor) && ReturnStep(s, t).Some?
    ensures var s' := ReturnStep(s, t).value; CustodyOk(s'.threads, s'.floor)
  {
    var w := s.threads[t].pc.w;
    var floor' := ReturnFloor(s.floor, w);
    assert Custodian(t, s.threads[t], s.floor) && Held(s.threads[t].pc) == [w];
    AppendKeeps(s.floor.idle, s.floor.workers, w);
    HandOver(s.threads, s.floor, t,
             s.threads[t].(pc := Unwinding(Returned(s.threads[t].pc.run, s.threads[t].pc.result))), floor');
  }

  /** What a thread still holds after retiring a worker, and what an exception makes it drop. */
  lemma RetiringViews(next: Then, raised: bool)
    ensures var pc := AfterRetiring(next, raised);
      && Held(pc) == (if raised then [] else HeldNext(next))
      && Dropped(next, raised) == (if raised then HeldNext(next) else [])
      && Owed(pc).None? && Cancelling(pc).None? && !pc.Creating?
  {
  }

  lemma HeldWhileRetiring(t: ThreadId, th: Thread, floor: Floor, w: WorkerId, next: Then)
    requires Custodian(t, th, floor) && Held(th.pc) == Retiring(w, next)
    ensures NoDuplicates(HeldNext(next))
    ensures forall x :: x in Held(th.pc) <==> !next.ThenEnd? && (x == w || x in HeldNext(next))
  {
    if !next.ThenEnd? {
      assert Held(th.pc)[1..] == HeldNext(next);
      assert NoDuplicates(Held(th.pc)[1..]);
    }
  }

  lemma ResumeCustody(threads: map<ThreadId, Thread>, floor: Floor, t: ThreadId, w: WorkerId, next: Then, raised: bool,
                      floor': Floor)
    requires CustodyOk(threads, floor) && t in threads && Held(threads[t].pc) == Retiring(w, next)
    requires w in floor.workers && floor.workers[w].destroyed
    requires floor' == floor.(quota := floor'.quota, retired := floor'.retired,
      lost := floor.lost + set x | x in Dropped(next, raised))
    ensures CustodyOk(threads[t := threads[t].(pc := AfterRetiring(next, raised))], floor')
  {
    hide AfterRetiring, Dropped, Held, HeldNext, Retiring, IsIdle, Filed;
    RetiringViews(next, raised);
    assert Custodian(t, threads[t], floor);
    HeldWhileRetiring(t, threads[t], floor, w, next);
    assert next.ThenEnd? ==> HeldNext(next) == [] by { EndHoldsNothing(next); }
    HandOver(threads, floor, t, threads[t].(pc := AfterRetiring(next, raised)), floor');
  }

  lemma EndHoldsNothing(next: Then)
    ensures next.ThenEnd? ==> HeldNext(next) == []
  {
  }

  lemma MarkKeepsLists(floor: Floor, t: ThreadId, w: WorkerId)
    requires Filed(floor.idle, floor.workers) && w in floor.workers
    ensures var floor' := MarkFloor(floor, t, w);
      && Filed(floor'.idle, floor'.workers)
      && forall x :: x in floor.workers ==>
           (IsIdle(floor'.idle, floor'.workers, x) <==> IsIdle(floor.idle, floor.workers, x))
  {
  }

  lemma MarkCustody(threads: map<ThreadId, Thread>, floor: Floor, t: ThreadId, w: WorkerId, next: Then)
    requires CustodyOk(threads, floor) && t in threads && threads[t].pc == Destroying(w, next) && w in floor.workers
    ensures CustodyOk(threads[t := threads[t].(pc := Deleting(w, next))], MarkFloor(floor, t, w))
  {
    hide HeldNext, Placed, Filed, IsIdle;
    var floor' := MarkFloor(floor, t, w);
    assert Custodian(t, threads[t], floor);
    MarkKeepsLists(floor, t, w);
    HandOver(threads, floor, t, threads[t].(pc := Deleting(w, next)), floor');
  }

  lemma MarkDestroyedCustody(s: System, t: ThreadId)
    requires CustodyOk(s.threads, s.floor) && MarkDestroyedStep(s, t).Some?
    ensures var s' := MarkDestroyedStep(s, t).value; CustodyOk(s'.threads, s'.floor)
  {
    hide CustodyOk, AfterRetiring, Dropped, HeldNext, MarkFloor;
    var (w, next) := (s.threads[t].pc.w, s.threads[t].pc.next);
    if s.floor.workers[w].destroyed {
      RetiringViews(next, false);
      ResumeCustody(s.threads, s.floor, t, w, next, false, s.floor);
    } else {
      MarkCustody(s.threads, s.floor, t, w, next);
    }
  }

  lemma ReturnTokenCustody(s: System, t: ThreadId, raised: bool)
    requires CustodyOk(s.threads, s.floor) && DeletionOk(s.threads, s.floor) && ReturnTokenStep(s, t, raised).Some?
    ensures var s' := ReturnTokenStep(s, t, raised).value; CustodyOk(s'.threads, s'.floor)
  {
    hide CustodyOk, AfterRetiring, Dropped, HeldNext;
    var (w, next) := (s.threads[t].pc.w, s.threads[t].pc.next);
    ResumeCustody(s.threads, s.floor, t, w, next, raised, RetireFloor(s.floor, w, Dropped(next, raised)));
  }

  lemma ReapCustody(c: Config, s: System, t: ThreadId, stale: seq<WorkerId>)
    requires CustodyOk(s.threads, s.floor) && ReapStep(c, s, t, stale).Some?
    ensures var s' := ReapStep(c, s, t, stale).value; CustodyOk(s'.threads, s'.floor)
  {
    hide CustodyOk, TakesOver, HandsOver, SweepOf;
    var (th, floor') := (Service(Sweeping(stale)), SweepFloor(s.floor, t, stale, s.now, c.settings));
    SweepHands(s.threads, s.floor, t, stale, s.now, c.settings);
    HandOver(s.threads, s.floor, t, th, floor');
  }

  /** The expired workers go from the lists to the thread that sweeps. */
  lemma SweepHands(threads: map<ThreadId, Thread>, floor: Floor, t: ThreadId, stale: seq<WorkerId>, now: Time,
                   settings: Settings)
    requires CustodyOk(threads, floor) && t !in threads && SweepOf(stale, floor.idle, floor.workers, now, settings)
    ensures var (th, floor') := (Service(Sweeping(stale)), SweepFloor(floor, t, stale, now, settings));
      && WorkersGrow(floor, floor') && Filed(floor'.idle, floor'.workers)
      && TakesOver(threads, floor, t, th, floor') && HandsOver(threads, floor, t, th, floor')
  {
    hide Swept, IsIdle, Filed, Placed, IdleExpired;
    SweepKeeps(stale, floor.idle, floor.workers, now, settings);
  }

  /** A thread that holds nothing and takes nothing, on an unchanged pool. */
  lemma IdleHanded(threads: map<ThreadId, Thread>, floor: Floor, t: ThreadId, th: Thread, floor': Floor)
    requires CustodyOk(threads, floor) && HeldBefore(threads, t) == [] && Held(th.pc) == []
    requires floor' == floor.(quota := floor'.quota)
    ensures CustodyOk(threads[t := th], floor')
  {
    hide Held, IsIdle, Filed;
    HandOver(threads, floor, t, th, floor');
  }

  predicate EmptyHandedStep(step: Step) {
    step.Admit? || step.ReserveLive? || step.CreateRaises? || step.Cancel?
  }

  lemma EmptyHandedCustody(c: Config, s: System, step: Step)
    requires CustodyOk(s.threads, s.floor) && EmptyHandedStep(step) && Apply(c, s, step).Some?
    ensures var s' := Apply(c, s, step).value; CustodyOk(s'.threads, s'.floor)
  {
    hide CustodyOk;
    var s' := Apply(c, s, step).value;
    IdleHanded(s.threads, s.floor, step.t, s'.threads[step.t], s'.floor);
  }

  predicate MaintenanceStep(step: Step) {
    step.Tick? || step.Reset? || step.Purge? || step.PurgeHistory?
  }

  lemma MaintenanceAside(c: Config, s: System, step: Step)
    requires MaintenanceStep(step) && Apply(c, s, step).Some?
    ensures var s' := Apply(c, s, step).value; s'.threads == s.threads && s'.active == s.active && s'.floor == s.floor
  {
  }

  lemma CustodyKept(c: Config, s: System, step: Step)
    requires CustodyOk(s.threads, s.floor) && DeletionOk(s.threads, s.floor) && Apply(c, s, step).Some?
    ensures var s' := Apply(c, s, step).value; CustodyOk(s'.threads, s'.floor)
  {
    hide CustodyOk, DeletionOk, Silent, PopStep, CreateStep, ReturnStep, MarkDestroyedStep, ReturnTokenStep, ReapStep;
    if step.Pop? { PopCustody(c, s, step.t); }
    else if step.Create? { CreateCustody(s, step.t, step.w); }
    else if step.Return? { ReturnCustody(s, step.t); }
    else if step.MarkDestroyed? { MarkDestroyedCustody(s, step.t); }
    else if step.ReturnToken? { ReturnTokenCustody(s, step.t, step.raised); }
    else if step.Reap? { ReapCustody(c, s, step.t, step.stale); }
    else if step.Restart? { EmptyCustody(); }
    else if SilentStep(step) {
      SilentMoves(c, s, step);
      SilentCustody(s, Apply(c, s, step).value, step.t);
    } else if EmptyHandedStep(step) {
      EmptyHandedCustody(c, s, step);
    } else {
      MaintenanceAside(c, s, step);
    }
  }

  lemma EmptyCustody()
    ensures CustodyOk(map[], EMPTY_FLOOR)
  {
  }
}
