/**
 * The runner as a transition system: any number of invoke, cancel and reap threads
 * interleave over the tables, the worker pool, the quota and the active map.
 *
 * Every transaction, every lock region and every backend call is one step, so a
 * thread may be overtaken between any two of them. A step is total: it answers None
 * when it is not enabled. Nondeterminism (new ids, clock reads, backend outcomes,
 * failing store calls) is carried by the step itself.
 */
module Runner {
  import opened Prelude
  import opened RunnerModel
  import opened RunnerState
  import opened WorkerPool
  import Quota

  type ThreadId(==, !new)

  datatype Config = Config(settings: Settings, limits: Quota.Limits, retention: int)

  /** An admitted request together with what the catalog says about its release. */
  datatype Request = Request(
    key: Key,
    fingerprint: Fingerprint,
    invocation: InvocationId,
    lease: LeaseId,
    runtime: RuntimeId,
    profile: ProfileName,
    reuseSandbox: bool)

  function Home(req: Request): PoolKey {
    PoolKey(req.key.tenant, req.runtime, req.profile)
  }

  datatype Outcome =
    | Rejected                                    // raised before a run was claimed
    | Replayed(run: RunId, result: RunResult)     // cached result of an earlier run
    | Returned(run: RunId, result: RunResult)     // result of this invocation's own run
    | Raised(run: RunId)
    | Ended                                       // cancel or reap is through

  /** What happens after a worker has been retired; only the two loops care whether that raised. */
  datatype Then =
    | ThenDrain(run: RunId, rest: seq<WorkerId>, candidate: Option<WorkerId>)
    | ThenAbandon(run: RunId)
    | ThenReturn(run: RunId, result: RunResult)
    | ThenSweep(rest: seq<WorkerId>)
    | ThenEnd(tenant: TenantId)

  datatype Pc =
    | Admitted
    | Checked                                     // the invocation id was not active
    | Begun(run: RunId)                           // begin_run committed a fresh claim
    | Draining(run: RunId, stale: seq<WorkerId>, candidate: Option<WorkerId>)
    | Preparing(run: RunId, w: WorkerId)          // renew and install on a warm worker
    | Reserving(run: RunId)
    | Creating(run: RunId)                        // token reserved, backend create and install
    | Holding(run: RunId, w: WorkerId)            // acquire returned
    | Executing(run: RunId, w: WorkerId)          // registered in the active map
    | Computed(run: RunId, w: WorkerId, result: RunResult)
    | Persisted(run: RunId, w: WorkerId, result: RunResult)
    | Keeping(run: RunId, w: WorkerId, result: RunResult)
    | Dooming(w: WorkerId, next: Then)            // invalidate entered
    | Destroying(w: WorkerId, next: Then)         // _destroy entered
    | Deleting(w: WorkerId, next: Then)           // flag set by this thread, token not yet returned
    | Abandoning(run: RunId)
    | Unwinding(outcome: Outcome)                 // finally block of invoke
    | Sweeping(stale: seq<WorkerId>)
    | Finished(outcome: Outcome)

  /** An invoke thread, or a cancel or reap thread serving no request of its own. */
  datatype Thread = Invoke(req: Request, pc: Pc) | Service(pc: Pc)

  datatype ActiveRun = ActiveRun(tenant: TenantId, lease: LeaseId, w: WorkerId)

  // History: what was claimed and committed, by whom and when.
  datatype Start = Start(key: Key, fingerprint: Fingerprint, at: Time, owner: ThreadId, serial: nat)
  datatype Commit = Commit(key: Key, fingerprint: Fingerprint, result: RunResult, expires: Time, at: Time)

  /** The database, and the history of what was claimed and committed in it. */
  datatype Ledger = Ledger(
    tables: Tables,
    started: map<RunId, Start>,            // history: every run id ever issued
    commits: map<RunId, Commit>,           // history: every committed result
    orphans: set<RunId>)                   // history: runs whose abandon_run failed

  /** The pool and the quota, and the history of who handled which worker. */
  datatype Floor = Floor(
    workers: Workers,
    idle: IdleLists,
    quota: Quota.Counters,
    custody: map<WorkerId, ThreadId>,      // history: who took the worker last
    deleter: map<WorkerId, ThreadId>,      // history: who set the destroyed flag
    retired: seq<WorkerId>,                // history: tokens returned, in order
    lost: set<WorkerId>)                   // history: popped, then dropped by a loop that raised

  datatype System = System(
    now: Time,
    threads: map<ThreadId, Thread>,
    active: map<InvocationId, ActiveRun>,
    ledger: Ledger,
    floor: Floor)

  const EMPTY_FLOOR := Floor(map[], map[], Quota.NONE_LIVE, map[], map[], [], {})
  const INITIAL := System(0, map[], map[], Ledger(Tables(map[], map[]), map[], map[], {}), EMPTY_FLOOR)

  datatype Step =
    | Tick(delta: nat)
    | Admit(t: ThreadId, req: Request)
    | CheckActive(t: ThreadId)
    | BeginRun(t: ThreadId, clock: Time, run: RunId)
    | BeginRaises(t: ThreadId)
    | Pop(t: ThreadId)
    | Drain(t: ThreadId)
    | Prepare(t: ThreadId, ok: bool)
    | ReserveLive(t: ThreadId)
    | Create(t: ThreadId, w: WorkerId)
    | CreateRaises(t: ThreadId)
    | Register(t: ThreadId)
    | Execute(t: ThreadId, result: Option<RunResult>)
    | FinishRun(t: ThreadId, stamp: Time)
    | FinishRaises(t: ThreadId)
    | Retire(t: ThreadId)
    | Return(t: ThreadId)
    | MarkUnhealthy(t: ThreadId)
    | MarkDestroyed(t: ThreadId)
    | ReturnToken(t: ThreadId, raised: bool)
    | AbandonRun(t: ThreadId)
    | AbandonRaises(t: ThreadId)
    | Unwind(t: ThreadId)
    | Cancel(t: ThreadId, tenant: TenantId, lease: LeaseId, invocation: InvocationId)
    | Reap(t: ThreadId, stale: seq<WorkerId>)
    | Sweep(t: ThreadId)
    | Reset
    | Purge
    | PurgeHistory(olderThan: int, clock: Time)
    | Restart

  /** Some thread takes this step; the others are the clock's, the janitor's or the operating system's. */
  predicate HasThread(step: Step) {
    !step.Tick? && !step.Reset? && !step.Purge? && !step.PurgeHistory? && !step.Restart?
  }

  // ---------------------------------------------------------------- program counters

  predicate Invoking(s: System, t: ThreadId) {
    t in s.threads && s.threads[t].Invoke?
  }

  /** Every thread step: thread `t` moves on, the database and the pool change as given. */
  function Move(s: System, t: ThreadId, pc: Pc, ledger: Ledger, floor: Floor): System
    requires t in s.threads
  {
    System(s.now, s.threads[t := s.threads[t].(pc := pc)], s.active, ledger, floor)
  }

  function Optional(w: Option<WorkerId>): seq<WorkerId> {
    if w.Some? then [w.value] else []
  }

  /** acquire's stale loop, then the candidate if there is one. */
  function AfterDrain(run: RunId, stale: seq<WorkerId>, candidate: Option<WorkerId>): Pc {
    if stale != [] then Destroying(stale[0], ThenDrain(run, stale[1..], candidate))
    else if candidate.Some? then Preparing(run, candidate.value)
    else Reserving(run)
  }

  function AfterSweep(stale: seq<WorkerId>): Pc {
    if stale == [] then Finished(Ended) else Destroying(stale[0], ThenSweep(stale[1..]))
  }

  /** Where a thread goes on after retiring a worker. */
  function AfterRetiring(next: Then, raised: bool): Pc {
    match next
    case ThenDrain(run, rest, candidate) => if raised then Abandoning(run) else Draining(run, rest, candidate)
    case ThenAbandon(run) => Abandoning(run)
    case ThenReturn(run, result) => Unwinding(Returned(run, result))
    case ThenSweep(rest) => if raised then Finished(Ended) else Sweeping(rest)
    case ThenEnd(_) => Finished(Ended)
  }

  /** A loop that sees an exception drops the workers it still had. */
  function Dropped(next: Then, raised: bool): seq<WorkerId> {
    match next
    case ThenDrain(_, rest, candidate) => if raised then rest + Optional(candidate) else []
    case ThenSweep(rest) => if raised then rest else []
    case _ => []
  }

  /** Outcomes after which the sandbox goes back to the pool. */
  predicate KeepsSandbox(result: RunResult) {
    || result.status == "SUCCEEDED"
    || result.errorCode in {"TIMEOUT", "USER_EXCEPTION", "USER_PROCESS_EXITED", "OUTPUT_LIMIT",
                            "INVALID_CHILD_RESPONSE", "OPERATOR_REPORTED_FAILURE"}
  }

  /** release reads the flags without the lock; the append, if any, is a later step. */
  function AfterUse(run: RunId, w: WorkerId, result: RunResult, worker: Worker, reuse: bool): Pc {
    if !KeepsSandbox(result) then Dooming(w, ThenReturn(run, result))
    else if worker.destroyed || !worker.healthy || !reuse then Destroying(w, ThenReturn(run, result))
    else Keeping(run, w, result)
  }

  // ---------------------------------------------------------------- effects on the pool

  function Taken(custody: map<WorkerId, ThreadId>, ws: seq<WorkerId>, t: ThreadId): map<WorkerId, ThreadId> {
    custody + map w | w in ws :: t
  }

  function PopFloor(floor: Floor, t: ThreadId, home: PoolKey, p: Pick): Floor {
    floor.(idle := Store(floor.idle, home, p.rest), custody := Taken(floor.custody, Popped(p), t))
  }

  function UpdateWorker(floor: Floor, w: WorkerId, worker: Worker): Floor {
    floor.(workers := floor.workers[w := worker])
  }

  function CreateFloor(floor: Floor, t: ThreadId, w: WorkerId, worker: Worker): Floor {
    floor.(workers := floor.workers[w := worker], custody := Taken(floor.custody, [w], t))
  }

  function ReturnFloor(floor: Floor, w: WorkerId): Floor
    requires w in floor.workers
  {
    var home := floor.workers[w].home;
    floor.(idle := floor.idle[home := Bucket(floor.idle, home) + [w]])
  }

  function MarkFloor(floor: Floor, t: ThreadId, w: WorkerId): Floor
    requires w in floor.workers
  {
    floor.(workers := floor.workers[w := floor.workers[w].(destroyed := true)], deleter := floor.deleter[w := t])
  }

  function LoseFloor(floor: Floor, dropped: seq<WorkerId>): Floor {
    floor.(lost := floor.lost + set w | w in dropped)
  }

  function RetireFloor(floor: Floor, w: WorkerId, dropped: seq<WorkerId>): Floor
    requires w in floor.workers
  {
    LoseFloor(floor.(quota := Quota.Release(floor.quota, floor.workers[w].home.tenant), retired := floor.retired + [w]),
      dropped)
  }

  function SweepFloor(floor: Floor, t: ThreadId, stale: seq<WorkerId>, now: Time, settings: Settings): Floor {
    floor.(idle := Swept(floor.idle, floor.workers, now, settings), custody := Taken(floor.custody, stale, t))
  }

  // ---------------------------------------------------------------- invoke: claim

  function AdmitStep(s: System, t: ThreadId, req: Request): Option<System> {
    if t in s.threads then None else Some(s.(threads := s.threads[t := Invoke(req, Admitted)]))
  }

  function CheckActiveStep(s: System, t: ThreadId): Option<System> {
    if !Invoking(s, t) || !s.threads[t].pc.Admitted? then None
    else
      var pc := if s.threads[t].req.invocation in s.active then Finished(Rejected) else Checked;
      Some(Move(s, t, pc, s.ledger, s.floor))
  }

  function BeginStep(s: System, t: ThreadId, clock: Time, run: RunId): Option<System> {
    if !Invoking(s, t) || !s.threads[t].pc.Checked? || clock > s.now || run in s.ledger.started then None
    else
      var (pc, ledger) := BeginLedger(s.ledger, s.threads[t].req, t, clock, s.now, run);
      Some(Move(s, t, pc, ledger, s.floor))
  }

  function BeginLedger(ledger: Ledger, req: Request, t: ThreadId, clock: Time, now: Time, run: RunId): (Pc, Ledger) {
    var (outcome, tables) := Begin(ledger.tables, req.key, req.fingerprint, clock, now, run);
    match outcome
    case Conflict => (Finished(Rejected), ledger)
    case InProgress => (Finished(Rejected), ledger)
    case Replay(result) => (Finished(Replayed(ledger.tables.claims[req.key].run, result)), ledger.(tables := tables))
    case Fresh(_) =>
      (Begun(run), ledger.(tables := tables,
        started := ledger.started[run := Start(req.key, req.fingerprint, now, t, |ledger.started|)]))
  }

  function BeginRaisesStep(s: System, t: ThreadId): Option<System> {
    if !Invoking(s, t) || !s.threads[t].pc.Checked? then None
    else Some(Move(s, t, Finished(Rejected), s.ledger, s.floor))
  }

  // ---------------------------------------------------------------- invoke: acquire a worker

  function PopStep(c: Config, s: System, t: ThreadId): Option<System> {
    if !Invoking(s, t) || !s.threads[t].pc.Begun? then None
    else
      var req := s.threads[t].req;
      var p := Scan(Bucket(s.floor.idle, Home(req)), s.floor.workers, req.key.release, s.now, c.settings);
      Some(Move(s, t, Draining(s.threads[t].pc.run, p.stale, p.candidate), s.ledger,
        PopFloor(s.floor, t, Home(req), p)))
  }

  function DrainStep(s: System, t: ThreadId): Option<System> {
    if !Invoking(s, t) || !s.threads[t].pc.Draining? then None
    else
      var pc := s.threads[t].pc;
      Some(Move(s, t, AfterDrain(pc.run, pc.stale, pc.candidate), s.ledger, s.floor))
  }

  /** Renews the sandbox and installs the release on a warm worker; either may raise. */
  function PrepareStep(s: System, t: ThreadId, ok: bool): Option<System> {
    if !Invoking(s, t) || !s.threads[t].pc.Preparing? || s.threads[t].pc.w !in s.floor.workers then None
    else
      var (w, run) := (s.threads[t].pc.w, s.threads[t].pc.run);
      if !ok then Some(Move(s, t, Dooming(w, ThenAbandon(run)), s.ledger, s.floor))
      else
        var worker := s.floor.workers[w];
        var ready := worker.(installed := worker.installed + {s.threads[t].req.key.release}, lastUsed := s.now);
        Some(Move(s, t, Holding(run, w), s.ledger, UpdateWorker(s.floor, w, ready)))
  }

  function ReserveStep(c: Config, s: System, t: ThreadId): Option<System> {
    if !Invoking(s, t) || !s.threads[t].pc.Reserving? then None
    else
      var (outcome, quota) := Quota.Reserve(s.floor.quota, c.limits, s.threads[t].req.key.tenant);
      var run := s.threads[t].pc.run;
      Some(Move(s, t, if outcome.Reserved? then Creating(run) else Abandoning(run), s.ledger, s.floor.(quota := quota)))
  }

  /** The backend returned a new worker for this tenant, runtime and profile, with the release installed. */
  function CreateStep(s: System, t: ThreadId, w: WorkerId): Option<System> {
    if !Invoking(s, t) || !s.threads[t].pc.Creating? || w in s.floor.workers then None
    else
      var req := s.threads[t].req;
      var worker := Worker(Home(req), {req.key.release}, s.now, 0, true, false);
      Some(Move(s, t, Holding(s.threads[t].pc.run, w), s.ledger, CreateFloor(s.floor, t, w, worker)))
  }

  /** Creation or installation raised: any half-made sandbox is deleted and the token goes back. */
  function CreateRaisesStep(s: System, t: ThreadId): Option<System> {
    if !Invoking(s, t) || !s.threads[t].pc.Creating? then None
    else
      var quota := Quota.Release(s.floor.quota, s.threads[t].req.key.tenant);
      Some(Move(s, t, Abandoning(s.threads[t].pc.run), s.ledger, s.floor.(quota := quota)))
  }

  // ---------------------------------------------------------------- invoke: run and commit

  function RegisterStep(s: System, t: ThreadId): Option<System> {
    if !Invoking(s, t) || !s.threads[t].pc.Holding? then None
    else
      var (req, run, w) := (s.threads[t].req, s.threads[t].pc.run, s.threads[t].pc.w);
      if req.invocation in s.active then Some(Move(s, t, Dooming(w, ThenAbandon(run)), s.ledger, s.floor))
      else
        var entry := ActiveRun(req.key.tenant, req.lease, w);
        Some(Move(s, t, Executing(run, w), s.ledger, s.floor).(active := s.active[req.invocation := entry]))
  }

  /** None: the backend raised, or its output was refused. */
  function ExecuteStep(s: System, t: ThreadId, result: Option<RunResult>): Option<System> {
    if !Invoking(s, t) || !s.threads[t].pc.Executing? then None
    else
      var (run, w) := (s.threads[t].pc.run, s.threads[t].pc.w);
      var pc := if result.Some? then Computed(run, w, result.value) else Dooming(w, ThenAbandon(run));
      Some(Move(s, t, pc, s.ledger, s.floor))
  }

  function FinishStep(c: Config, s: System, t: ThreadId, stamp: Time): Option<System> {
    if !Invoking(s, t) || !s.threads[t].pc.Computed? || stamp > s.now then None
    else
      var (run, w, result) := (s.threads[t].pc.run, s.threads[t].pc.w, s.threads[t].pc.result);
      var (committed, ledger) := FinishLedger(c, s.ledger, s.threads[t].req, run, result, stamp, s.now);
      Some(Move(s, t, if committed then Persisted(run, w, result) else Dooming(w, ThenAbandon(run)), ledger, s.floor))
  }

  function FinishLedger(c: Config, ledger: Ledger, req: Request, run: RunId, result: RunResult, stamp: Time,
                        now: Time): (bool, Ledger) {
    var (outcome, tables) := Finish(ledger.tables, run, req.key, result, stamp, c.retention, now);
    if !outcome.Committed? then (false, ledger)
    else
      var commit := Commit(req.key, req.fingerprint, result, Expiry(result, stamp, c.retention), now);
      (true, ledger.(tables := tables, commits := ledger.commits[run := commit]))
  }

  function FinishRaisesStep(s: System, t: ThreadId): Option<System> {
    if !Invoking(s, t) || !s.threads[t].pc.Computed? then None
    else Some(Move(s, t, Dooming(s.threads[t].pc.w, ThenAbandon(s.threads[t].pc.run)), s.ledger, s.floor))
  }

  /** A worker that is about to be invalidated keeps its bookkeeping; release updates it. */
  function RetireStep(s: System, t: ThreadId): Option<System> {
    if !Invoking(s, t) || !s.threads[t].pc.Persisted? || s.threads[t].pc.w !in s.floor.workers then None
    else
      var (run, w, result) := (s.threads[t].pc.run, s.threads[t].pc.w, s.threads[t].pc.result);
      var worker := s.floor.workers[w];
      var used := if KeepsSandbox(result) then worker.(runs := worker.runs + 1, lastUsed := s.now) else worker;
      Some(Move(s, t, AfterUse(run, w, result, worker, s.threads[t].req.reuseSandbox), s.ledger,
        UpdateWorker(s.floor, w, used)))
  }

  function ReturnStep(s: System, t: ThreadId): Option<System> {
    if !Invoking(s, t) || !s.threads[t].pc.Keeping? || s.threads[t].pc.w !in s.floor.workers then None
    else
      var pc := s.threads[t].pc;
      Some(Move(s, t, Unwinding(Returned(pc.run, pc.result)), s.ledger, ReturnFloor(s.floor, pc.w)))
  }

  // ---------------------------------------------------------------- retiring a worker

  function MarkUnhealthyStep(s: System, t: ThreadId): Option<System> {
    if t !in s.threads || !s.threads[t].pc.Dooming? || s.threads[t].pc.w !in s.floor.workers then None
    else
      var (w, next) := (s.threads[t].pc.w, s.threads[t].pc.next);
      Some(Move(s, t, Destroying(w, next), s.ledger, UpdateWorker(s.floor, w, s.floor.workers[w].(healthy := false))))
  }

  function MarkDestroyedStep(s: System, t: ThreadId): Option<System> {
    if t !in s.threads || !s.threads[t].pc.Destroying? || s.threads[t].pc.w !in s.floor.workers then None
    else
      var (w, next) := (s.threads[t].pc.w, s.threads[t].pc.next);
      if s.floor.workers[w].destroyed then Some(Move(s, t, AfterRetiring(next, false), s.ledger, s.floor))
      else Some(Move(s, t, Deleting(w, next), s.ledger, MarkFloor(s.floor, t, w)))
  }

  /** The backend deleted the sandbox or raised; either way the token is released. */
  function ReturnTokenStep(s: System, t: ThreadId, raised: bool): Option<System> {
    if t !in s.threads || !s.threads[t].pc.Deleting? || s.threads[t].pc.w !in s.floor.workers then None
    else
      var (w, next) := (s.threads[t].pc.w, s.threads[t].pc.next);
      Some(Move(s, t, AfterRetiring(next, raised), s.ledger, RetireFloor(s.floor, w, Dropped(next, raised))))
  }

  // ---------------------------------------------------------------- leaving

  function AbandonStep(s: System, t: ThreadId): Option<System> {
    if !Invoking(s, t) || !s.threads[t].pc.Abandoning? then None
    else
      var run := s.threads[t].pc.run;
      var tables := Abandon(s.ledger.tables, run, s.threads[t].req.key, s.now);
      Some(Move(s, t, Unwinding(Raised(run)), s.ledger.(tables := tables), s.floor))
  }

  function AbandonRaisesStep(s: System, t: ThreadId): Option<System> {
    if !Invoking(s, t) || !s.threads[t].pc.Abandoning? then None
    else
      var run := s.threads[t].pc.run;
      Some(Move(s, t, Unwinding(Raised(run)), s.ledger.(orphans := s.ledger.orphans + {run}), s.floor))
  }

  function UnwindStep(s: System, t: ThreadId): Option<System> {
    if !Invoking(s, t) || !s.threads[t].pc.Unwinding? then None
    else
      Some(Move(s, t, Finished(s.threads[t].pc.outcome), s.ledger,
        s.floor).(active := s.active - {s.threads[t].req.invocation}))
  }

  // ---------------------------------------------------------------- cancel, reap, maintenance

  function CancelStep(s: System, t: ThreadId, tenant: TenantId, lease: LeaseId,
                      invocation: InvocationId): Option<System> {
    if t in s.threads then None
    else if invocation in s.active && s.active[invocation].tenant == tenant && s.active[invocation].lease == lease then
      var pc := Dooming(s.active[invocation].w, ThenEnd(tenant));
      Some(s.(active := s.active - {invocation}, threads := s.threads[t := Service(pc)]))
    else Some(s.(threads := s.threads[t := Service(Finished(Ended))]))   // not active, or forbidden
  }

  ghost function ReapStep(c: Config, s: System, t: ThreadId, stale: seq<WorkerId>): Option<System> {
    if t in s.threads || !SweepOf(stale, s.floor.idle, s.floor.workers, s.now, c.settings) then None
    else Some(s.(floor := SweepFloor(s.floor, t, stale, s.now, c.settings),
      threads := s.threads[t := Service(Sweeping(stale))]))
  }

  function SweepStep(s: System, t: ThreadId): Option<System> {
    if t !in s.threads || !s.threads[t].Service? || !s.threads[t].pc.Sweeping? then None
    else Some(Move(s, t, AfterSweep(s.threads[t].pc.stale), s.ledger, s.floor))
  }

  /**
   * The process dies anywhere and a new one starts up: everything in memory is gone,
   * leftover sandboxes are deleted by the backend, stale executions become history.
   */
  function RestartStep(s: System): System {
    var tables := PurgeExpired(ResetRunning(s.ledger.tables, s.now), s.now);
    System(s.now, map[], map[], s.ledger.(tables := tables, orphans := {}), EMPTY_FLOOR)
  }

  function WithTables(s: System, tables: Tables): System {
    s.(ledger := s.ledger.(tables := tables))
  }

  ghost function Apply(c: Config, s: System, step: Step): Option<System> {
    match step
    case Tick(delta) => Some(s.(now := s.now + delta))
    case Admit(t, req) => AdmitStep(s, t, req)
    case CheckActive(t) => CheckActiveStep(s, t)
    case BeginRun(t, clock, run) => BeginStep(s, t, clock, run)
    case BeginRaises(t) => BeginRaisesStep(s, t)
    case Pop(t) => PopStep(c, s, t)
    case Drain(t) => DrainStep(s, t)
    case Prepare(t, ok) => PrepareStep(s, t, ok)
    case ReserveLive(t) => ReserveStep(c, s, t)
    case Create(t, w) => CreateStep(s, t, w)
    case CreateRaises(t) => CreateRaisesStep(s, t)
    case Register(t) => RegisterStep(s, t)
    case Execute(t, result) => ExecuteStep(s, t, result)
    case FinishRun(t, stamp) => FinishStep(c, s, t, stamp)
    case FinishRaises(t) => FinishRaisesStep(s, t)
    case Retire(t) => RetireStep(s, t)
    case Return(t) => ReturnStep(s, t)
    case MarkUnhealthy(t) => MarkUnhealthyStep(s, t)
    case MarkDestroyed(t) => MarkDestroyedStep(s, t)
    case ReturnToken(t, raised) => ReturnTokenStep(s, t, raised)
    case AbandonRun(t) => AbandonStep(s, t)
    case AbandonRaises(t) => AbandonRaisesStep(s, t)
    case Unwind(t) => UnwindStep(s, t)
    case Cancel(t, tenant, lease, invocation) => CancelStep(s, t, tenant, lease, invocation)
    case Reap(t, stale) => ReapStep(c, s, t, stale)
    case Sweep(t) => SweepStep(s, t)
    case Reset => Some(WithTables(s, ResetRunning(s.ledger.tables, s.now)))
    case Purge => Some(WithTables(s, PurgeExpired(s.ledger.tables, s.now)))
    case PurgeHistory(olderThan, clock) =>
      if clock > s.now then None else Some(WithTables(s, PurgeOldRuns(s.ledger.tables, olderThan, clock, s.now)))
    case Restart => Some(RestartStep(s))
  }

  /** Runs a schedule; None when some step of it is not enabled. */
  ghost function Exec(c: Config, s: System, steps: seq<Step>): Option<System>
    decreases |steps|
  {
    if steps == [] then Some(s)
    else
      match Apply(c, s, steps[0])
      case None => None
      case Some(s') => Exec(c, s', steps[1..])
  }
}
