/**
 * What the database promises the threads, and what the threads owe the database:
 * every answer a caller gets was committed for its own key and fingerprint, and a
 * running execution always has exactly one thread behind it.
 */
module RunnerLedger {
  import opened Prelude
  import opened RunnerModel
  import opened RunnerState
  import opened Runner

  // ---------------------------------------------------------------- views of a thread

  function RunNext(next: Then): Option<RunId> {
    match next
    case ThenDrain(run, _, _) => Some(run)
    case ThenAbandon(run) => Some(run)
    case _ => None
  }

  /** The run this thread claimed and has neither committed nor abandoned. */
  function Pending(pc: Pc): Option<RunId> {
    match pc
    case Begun(run) => Some(run)
    case Draining(run, _, _) => Some(run)
    case Preparing(run, _) => Some(run)
    case Reserving(run) => Some(run)
    case Creating(run) => Some(run)
    case Holding(run, _) => Some(run)
    case Executing(run, _) => Some(run)
    case Computed(run, _, _) => Some(run)
    case Dooming(_, next) => RunNext(next)
    case Destroying(_, next) => RunNext(next)
    case Deleting(_, next) => RunNext(next)
    case Abandoning(run) => Some(run)
    case _ => None
  }

  function AnswerNext(next: Then): Option<Outcome> {
    if next.ThenReturn? then Some(Returned(next.run, next.result)) else None
  }

  /** What the caller will get, once that is decided. */
  function Answer(pc: Pc): Option<Outcome> {
    match pc
    case Persisted(run, _, result) => Some(Returned(run, result))
    case Keeping(run, _, result) => Some(Returned(run, result))
    case Dooming(_, next) => AnswerNext(next)
    case Destroying(_, next) => AnswerNext(next)
    case Deleting(_, next) => AnswerNext(next)
    case Unwinding(outcome) => Some(outcome)
    case Finished(outcome) => Some(outcome)
    case _ => None
  }

  // ---------------------------------------------------------------- invariants

  ghost predicate Coheres(ledger: Ledger, now: Time) {
    && Coherent(ledger.tables, now)
    && (forall r :: r in ledger.tables.runs ==>
          && r in ledger.started
          && ledger.tables.runs[r].key == ledger.started[r].key
          && ledger.tables.runs[r].fingerprint == ledger.started[r].fingerprint)
    && (forall r :: r in ledger.started ==> ledger.started[r].at <= now)
  }

  predicate SameRequest(start: Start, commit: Commit) {
    start.key == commit.key && start.fingerprint == commit.fingerprint
  }

  /** A commit belongs to a run that was started for it and is no longer running. */
  ghost predicate CommitsOk(ledger: Ledger, now: Time) {
    && (forall r :: r in ledger.commits ==>
          && r in ledger.started && SameRequest(ledger.started[r], ledger.commits[r])
          && !IsRunning(ledger.tables, r)
          && ledger.commits[r].at <= now
          && (ledger.commits[r].result.retryable ==> ledger.commits[r].expires <= now))
  }

  predicate Backs(row: Claim, commit: Commit) {
    && row.state.Settled? && row.fingerprint == commit.fingerprint && row.replayable == !commit.result.retryable
    && row.result == Some(commit.result) && row.expires == Some(commit.expires)
  }

  /** Every settled claim is the record of a commit, and a final commit keeps its claim until it expires. */
  ghost predicate Cached(ledger: Ledger, now: Time) {
    && (forall k :: k in ledger.tables.claims && ledger.tables.claims[k].state.Settled? ==>
          var r := ledger.tables.claims[k].run;
          r in ledger.commits && ledger.commits[r].key == k && Backs(ledger.tables.claims[k], ledger.commits[r]))
    && (forall r :: r in ledger.commits && !ledger.commits[r].result.retryable && ledger.commits[r].expires > now ==>
          var k := ledger.commits[r].key;
          k in ledger.tables.claims && ledger.tables.claims[k].state.Settled? && ledger.tables.claims[k].run == r)
  }

  /** Started for another key, or earlier than run `than`. */
  predicate Earlier(start: Start, than: Start) {
    start.key == than.key ==> start.serial < than.serial
  }

  predicate RunningNow(ledger: Ledger, r: RunId) {
    r in ledger.started && IsRunning(ledger.tables, r)
  }

  predicate FinalCommit(ledger: Ledger, r: RunId) {
    r in ledger.commits && r in ledger.started && !ledger.commits[r].result.retryable
  }

  /** Runs are numbered in the order they start, and the running one is the latest of its key. */
  ghost predicate Ordered(ledger: Ledger) {
    && (forall r :: r in ledger.started ==> ledger.started[r].serial < |ledger.started|)
    && (forall r, q :: RunningNow(ledger, r) && q in ledger.started && q != r ==>
          Earlier(ledger.started[q], ledger.started[r]))
  }

  /** A run of the same key that starts after a final commit starts after its expiry. */
  ghost predicate Windows(ledger: Ledger) {
    forall r, q :: FinalCommit(ledger, r) && q in ledger.started && q != r ==>
      Earlier(ledger.started[q], ledger.started[r]) || ledger.started[q].at >= ledger.commits[r].expires
  }

  ghost predicate LedgerOk(ledger: Ledger, now: Time) {
    Coheres(ledger, now) && CommitsOk(ledger, now) && Cached(ledger, now) && Ordered(ledger) && Windows(ledger)
  }

  predicate StartedBy(ledger: Ledger, r: RunId, t: ThreadId, req: Request) {
    r in ledger.started && ledger.started[r].key == req.key && ledger.started[r].fingerprint == req.fingerprint
      && ledger.started[r].owner == t
  }

  predicate CommittedFor(ledger: Ledger, r: RunId, req: Request, result: RunResult) {
    r in ledger.commits && ledger.commits[r].key == req.key && ledger.commits[r].fingerprint == req.fingerprint
      && ledger.commits[r].result == result
  }

  /** A caller's own result was committed by its own run; a replayed one by a run of the same request. */
  predicate Justified(t: ThreadId, req: Request, outcome: Outcome, ledger: Ledger) {
    match outcome
    case Returned(run, result) => StartedBy(ledger, run, t, req) && CommittedFor(ledger, run, req, result)
    case Raised(run) => StartedBy(ledger, run, t, req)
    case Replayed(run, result) => CommittedFor(ledger, run, req, result) && !result.retryable
    case _ => true
  }

  predicate ThreadOk(t: ThreadId, th: Thread, ledger: Ledger) {
    && (th.Service? ==> Pending(th.pc).None?)
    && (th.Invoke? && Pending(th.pc).Some? ==>
          StartedBy(ledger, Pending(th.pc).value, t, th.req) && Pending(th.pc).value !in ledger.commits)
    && (th.Invoke? && Answer(th.pc).Some? ==> Justified(t, th.req, Answer(th.pc).value, ledger))
  }

  /** A running execution has the thread that started it still working on it, unless abandoning it failed. */
  predicate Attended(r: RunId, threads: map<ThreadId, Thread>, ledger: Ledger) {
    IsRunning(ledger.tables, r) && r in ledger.started && r !in ledger.orphans ==>
      var t := ledger.started[r].owner;
      t in threads && Pending(threads[t].pc) == Some(r)
  }

  ghost predicate ThreadsOk(threads: map<ThreadId, Thread>, ledger: Ledger) {
    && (forall t :: t in threads ==> ThreadOk(t, threads[t], ledger))
    && (forall r :: r in ledger.tables.runs ==> Attended(r, threads, ledger))
  }

  // ---------------------------------------------------------------- steps that do not touch the database

  predicate DatabaseStep(step: Step) {
    || step.BeginRun? || step.FinishRun? || step.AbandonRun? || step.AbandonRaises?
    || step.Tick? || step.Reset? || step.Purge? || step.PurgeHistory? || step.Restart?
  }

  /** Thread `t` moved without changing its run or its answer; an answer it gains justifies itself. */
  ghost predicate Offline(s: System, s': System, t: ThreadId) {
    && t in s'.threads && s'.threads == s.threads[t := s'.threads[t]]
    && s'.ledger == s.ledger && s'.now == s.now
    && (t in s.threads ==>
          && (s'.threads[t].Invoke? <==> s.threads[t].Invoke?)
          && (s.threads[t].Invoke? ==> s'.threads[t].req == s.threads[t].req)
          && Pending(s'.threads[t].pc) == Pending(s.threads[t].pc))
    && (t !in s.threads ==> Pending(s'.threads[t].pc).None?)
    && (Answer(s'.threads[t].pc).Some? ==>
          || Answer(s'.threads[t].pc).value.Rejected? || Answer(s'.threads[t].pc).value.Ended?
          || (t in s.threads && Answer(s'.threads[t].pc) == Answer(s.threads[t].pc)))
  }

  lemma RetiringAnswers(next: Then, raised: bool)
    ensures var pc := AfterRetiring(next, raised);
      && Pending(pc) == RunNext(next)
      && (Answer(pc).Some? ==> Answer(pc) == AnswerNext(next) || Answer(pc) == Some(Ended))
  {
  }

  predicate AcquireStep(step: Step) {
    || step.Admit? || step.CheckActive? || step.BeginRaises? || step.Pop? || step.Drain? || step.Prepare?
  }

  predicate CreateStepOf(step: Step) {
    step.ReserveLive? || step.Create? || step.CreateRaises? || step.Register? || step.Execute?
  }

  predicate ConcludeStep(step: Step) {
    step.FinishRaises? || step.Retire? || step.Return?
  }

  predicate RetireStepOf(step: Step) {
    step.MarkUnhealthy? || step.MarkDestroyed? || step.ReturnToken?
  }

  predicate ServiceStep(step: Step) {
    step.Unwind? || step.Cancel? || step.Reap? || step.Sweep?
  }

  lemma AdmitOffline(c: Config, s: System, step: Step)
    requires (step.Admit? || step.CheckActive? || step.BeginRaises?) && Apply(c, s, step).Some?
    ensures Offline(s, Apply(c, s, step).value, step.t)
  {
    hide PopFloor, UpdateWorker;
  }

  lemma WarmOffline(c: Config, s: System, step: Step)
    requires (step.Pop? || step.Drain? || step.Prepare?) && Apply(c, s, step).Some?
    ensures Offline(s, Apply(c, s, step).value, step.t)
  {
    hide PopFloor, UpdateWorker;
  }

  lemma AcquireOffline(c: Config, s: System, step: Step)
    requires AcquireStep(step) && Apply(c, s, step).Some?
    ensures Offline(s, Apply(c, s, step).value, step.t)
  {
    hide Apply, Offline;
    if step.Admit? || step.CheckActive? || step.BeginRaises? { AdmitOffline(c, s, step); }
    else { WarmOffline(c, s, step); }
  }

  lemma ReserveOffline(c: Config, s: System, step: Step)
    requires (step.ReserveLive? || step.Create? || step.CreateRaises?) && Apply(c, s, step).Some?
    ensures Offline(s, Apply(c, s, step).value, step.t)
  {
    hide CreateFloor;
  }

  lemma ExecuteOffline(c: Config, s: System, step: Step)
    requires (step.Register? || step.Execute?) && Apply(c, s, step).Some?
    ensures Offline(s, Apply(c, s, step).value, step.t)
  {
    hide CreateFloor;
  }

  lemma CreateOffline(c: Config, s: System, step: Step)
    requires CreateStepOf(step) && Apply(c, s, step).Some?
    ensures Offline(s, Apply(c, s, step).value, step.t)
  {
    hide Apply, Offline;
    if step.ReserveLive? || step.Create? || step.CreateRaises? { ReserveOffline(c, s, step); }
    else { ExecuteOffline(c, s, step); }
  }

  lemma ConcludeOffline(c: Config, s: System, step: Step)
    requires ConcludeStep(step) && Apply(c, s, step).Some?
    ensures Offline(s, Apply(c, s, step).value, step.t)
  {
    hide KeepsSandbox, UpdateWorker, ReturnFloor;
  }

  lemma RetireOffline(c: Config, s: System, step: Step)
    requires RetireStepOf(step) && Apply(c, s, step).Some?
    ensures Offline(s, Apply(c, s, step).value, step.t)
  {
    hide UpdateWorker, MarkFloor, RetireFloor, Dropped, AfterRetiring;
    if step.MarkUnhealthy? { return; }
    hide Pending, Answer;
    var pc := s.threads[step.t].pc;
    RetiringPc(pc.w, pc.next);
    RetiringAnswers(pc.next, step.ReturnToken? && step.raised);
  }

  lemma RetiringPc(w: WorkerId, next: Then)
    ensures Pending(Destroying(w, next)) == Pending(Deleting(w, next)) == RunNext(next)
    ensures Answer(Destroying(w, next)) == Answer(Deleting(w, next)) == AnswerNext(next)
  {
  }

  lemma UnwindOffline(c: Config, s: System, step: Step)
    requires (step.Unwind? || step.Sweep?) && Apply(c, s, step).Some?
    ensures Offline(s, Apply(c, s, step).value, step.t)
  {
    hide SweepFloor;
  }

  lemma EnterOffline(c: Config, s: System, step: Step)
    requires (step.Cancel? || step.Reap?) && Apply(c, s, step).Some?
    ensures Offline(s, Apply(c, s, step).value, step.t)
  {
    hide SweepFloor;
  }

  lemma ServiceOffline(c: Config, s: System, step: Step)
    requires ServiceStep(step) && Apply(c, s, step).Some?
    ensures Offline(s, Apply(c, s, step).value, step.t)
  {
    hide Apply, Offline;
    if step.Unwind? || step.Sweep? { UnwindOffline(c, s, step); }
    else { EnterOffline(c, s, step); }
  }

  lemma OfflineMoves(c: Config, s: System, step: Step)
    requires !DatabaseStep(step) && Apply(c, s, step).Some?
    ensures Offline(s, Apply(c, s, step).value, step.t)
  {
    hide Apply, Offline;
    if AcquireStep(step) { AcquireOffline(c, s, step); }
    else if CreateStepOf(step) { CreateOffline(c, s, step); }
    else if ConcludeStep(step) { ConcludeOffline(c, s, step); }
    else if RetireStepOf(step) { RetireOffline(c, s, step); }
    else { ServiceOffline(c, s, step); }
  }

  lemma OfflineKeeps(s: System, s': System, t: ThreadId)
    requires ThreadsOk(s.threads, s.ledger) && Offline(s, s', t)
    ensures ThreadsOk(s'.threads, s'.ledger)
  {
    hide Pending, Answer;
    forall u | u in s'.threads ensures ThreadOk(u, s'.threads[u], s'.ledger) {
      if u in s.threads { assert ThreadOk(u, s.threads[u], s.ledger); }
    }
    forall r | r in s'.ledger.tables.runs ensures Attended(r, s'.threads, s'.ledger) {
      assert Attended(r, s.threads, s.ledger);
    }
  }

  // ---------------------------------------------------------------- steps that do

  /** History only grows, and only thread `t` commits or starts anything. */
  ghost predicate Extends(ledger: Ledger, ledger': Ledger, mine: Option<RunId>) {
    && (forall r :: r in ledger.started ==> r in ledger'.started && ledger'.started[r] == ledger.started[r])
    && (forall r :: r in ledger.commits ==> r in ledger'.commits && ledger'.commits[r] == ledger.commits[r])
    && (forall r :: r in ledger'.commits && r !in ledger.commits ==> mine == Some(r))
    && ledger.orphans <= ledger'.orphans
  }

  /** What is running afterwards ran before, or is what thread `t` works on now. */
  ghost predicate Runs(ledger: Ledger, ledger': Ledger, t: ThreadId, pc: Pc, pc': Pc) {
    forall r :: IsRunning(ledger'.tables, r) && r !in ledger'.orphans ==>
      || (IsRunning(ledger.tables, r) && r in ledger.started && Pending(pc) != Some(r))
      || (r in ledger'.started && ledger'.started[r].owner == t && Pending(pc') == Some(r))
  }

  lemma OnlineKeeps(threads: map<ThreadId, Thread>, ledger: Ledger, t: ThreadId, pc: Pc, ledger': Ledger)
    requires ThreadsOk(threads, ledger) && t in threads && threads[t].Invoke?
    requires Extends(ledger, ledger', Pending(threads[t].pc))
    requires Runs(ledger, ledger', t, threads[t].pc, pc)
    requires ThreadOk(t, threads[t].(pc := pc), ledger')
    ensures ThreadsOk(threads[t := threads[t].(pc := pc)], ledger')
  {
    hide Pending, Answer;
    var threads' := threads[t := threads[t].(pc := pc)];
    assert ThreadOk(t, threads[t], ledger);
    forall u | u in threads' ensures ThreadOk(u, threads'[u], ledger') {
      if u != t { assert ThreadOk(u, threads[u], ledger); }
    }
    forall r | r in ledger'.tables.runs ensures Attended(r, threads', ledger') {
      if r in ledger.tables.runs { assert Attended(r, threads, ledger); }
    }
  }

  // begin_run

  function WithStart(ledger: Ledger, key: Key, row: Claim, run: RunId, history: Run, start: Start): Ledger {
    ledger.(tables := Tables(ledger.tables.runs[run := history], ledger.tables.claims[key := row]),
            started := ledger.started[run := start])
  }

  /** The claim a fresh run takes over was neither running nor still to be replayed. */
  ghost predicate Free(ledger: Ledger, key: Key, now: Time) {
    && !(key in ledger.tables.claims && ledger.tables.claims[key].state.Claimed?)
    && (forall r :: r in ledger.commits && ledger.commits[r].key == key && !ledger.commits[r].result.retryable ==>
          ledger.commits[r].expires <= now)
  }

  lemma FreshOrder(ledger: Ledger, ledger': Ledger, run: RunId, start: Start)
    requires Ordered(ledger) && run !in ledger.started && start.serial == |ledger.started|
    requires ledger'.started == ledger.started[run := start]
    requires forall r :: IsRunning(ledger'.tables, r) && r != run ==>
      IsRunning(ledger.tables, r) && r in ledger.started && ledger.started[r].key != start.key
    ensures Ordered(ledger')
  {
    assert |ledger'.started| == |ledger.started| + 1 by {
      assert ledger'.started.Keys == ledger.started.Keys + {run};
    }
    forall r, q | r in ledger'.tables.runs && r in ledger'.started && IsRunning(ledger'.tables, r)
      && q in ledger'.started && q != r
      ensures Earlier(ledger'.started[q], ledger'.started[r])
    {
      if r != run && q != run { assert Earlier(ledger.started[q], ledger.started[r]); }
    }
  }

  lemma FreshWindows(ledger: Ledger, ledger': Ledger, run: RunId, start: Start)
    requires Windows(ledger) && run !in ledger.started && run !in ledger.commits
    requires ledger'.started == ledger.started[run := start] && ledger'.commits == ledger.commits
    requires forall r :: r in ledger.commits && r in ledger.started && !ledger.commits[r].result.retryable ==>
      ledger.started[r].key != start.key || ledger.commits[r].expires <= start.at
    ensures Windows(ledger')
  {
  }

  lemma FreshCached(ledger: Ledger, ledger': Ledger, key: Key, now: Time)
    requires Cached(ledger, now) && Free(ledger, key, now) && ledger'.commits == ledger.commits
    requires key in ledger'.tables.claims
    requires ledger'.tables.claims == ledger.tables.claims[key := ledger'.tables.claims[key]]
    requires ledger'.tables.claims[key].state.Claimed?
    ensures Cached(ledger', now)
  {
  }

  /** No run of the key is running when its claim is free. */
  lemma FreeOfRuns(ledger: Ledger, key: Key, now: Time)
    requires Coheres(ledger, now) && Free(ledger, key, now)
    ensures forall r :: IsRunning(ledger.tables, r) ==> r in ledger.started && ledger.started[r].key != key
  {
    hide WellFormed, Retained;
    assert forall r :: IsRunning(ledger.tables, r) ==> HoldsClaim(ledger.tables, ledger.tables.runs[r].key, r);
  }

  /** A fresh claim: no unexpired final commit of the key can be around. */
  lemma FreshCoheres(
      ledger: Ledger, key: Key, row: Claim, run: RunId, history: Run, start: Start, now: Time)
    requires Coheres(ledger, now) && CommitsOk(ledger, now) && run !in ledger.started
    requires start.key == history.key == key && start.fingerprint == history.fingerprint && start.at == now
    requires Coherent(WithStart(ledger, key, row, run, history, start).tables, now)
    ensures Coheres(WithStart(ledger, key, row, run, history, start), now)
    ensures CommitsOk(WithStart(ledger, key, row, run, history, start), now)
  {
    hide Coherent;
  }

  lemma FreshKeepsLedger(ledger: Ledger, key: Key, row: Claim, run: RunId, history: Run, start: Start, now: Time)
    requires LedgerOk(ledger, now) && run !in ledger.started && Free(ledger, key, now)
    requires row.state.Claimed? && start.key == history.key == key && start.fingerprint == history.fingerprint
    requires start.at == now && start.serial == |ledger.started|
    requires Coherent(WithStart(ledger, key, row, run, history, start).tables, now)
    ensures LedgerOk(WithStart(ledger, key, row, run, history, start), now)
  {
    hide Coherent, Ordered, Windows, Cached, Coheres, CommitsOk;
    var ledger' := WithStart(ledger, key, row, run, history, start);
    FreshCoheres(ledger, key, row, run, history, start, now);
    FreshOthers(ledger, key, run, now);
    FreshOrder(ledger, ledger', run, start);
    FreshWindows(ledger, ledger', run, start);
    FreshCached(ledger, ledger', key, now);
  }

  /** No run of the key is running, every final commit of it has expired, and the run is new. */
  lemma FreshOthers(ledger: Ledger, key: Key, run: RunId, now: Time)
    requires Coheres(ledger, now) && CommitsOk(ledger, now) && Free(ledger, key, now) && run !in ledger.started
    ensures run !in ledger.commits
    ensures forall r :: IsRunning(ledger.tables, r) ==> r in ledger.started && ledger.started[r].key != key
    ensures forall r :: FinalCommit(ledger, r) ==> ledger.started[r].key != key || ledger.commits[r].expires <= now
  {
    hide Coherent;
    FreeOfRuns(ledger, key, now);
  }

  lemma FreshIsFree(ledger: Ledger, req: Request, clock: Time, now: Time, run: RunId)
    requires LedgerOk(ledger, now) && clock <= now
    requires Begin(ledger.tables, req.key, req.fingerprint, clock, now, run).0.Fresh?
    ensures Free(ledger, req.key, now)
  {
    hide Matched, Retained, Ordered, Windows;
  }

  lemma ReplayKeepsLedger(ledger: Ledger, key: Key, row: Claim, now: Time)
    requires LedgerOk(ledger, now) && key in ledger.tables.claims && ledger.tables.claims[key].state.Settled?
    requires row == ledger.tables.claims[key].(replays := row.replays)
    requires Coherent(ledger.tables.(claims := ledger.tables.claims[key := row]), now)
    ensures LedgerOk(ledger.(tables := ledger.tables.(claims := ledger.tables.claims[key := row])), now)
  {
    hide Matched, WellFormed, Retained;
  }

  lemma BeginKeepsLedger(ledger: Ledger, req: Request, t: ThreadId, clock: Time, now: Time, run: RunId)
    requires LedgerOk(ledger, now) && clock <= now && run !in ledger.started
    ensures LedgerOk(BeginLedger(ledger, req, t, clock, now, run).1, now)
  {
    hide Cached, Ordered, Windows, CommitsOk, Matched, HistoryKept, Free;
    BeginKeeps(ledger.tables, req.key, req.fingerprint, clock, now, run);
    var (outcome, tables) := Begin(ledger.tables, req.key, req.fingerprint, clock, now, run);
    if outcome.Replay? {
      ReplayKeepsLedger(ledger, req.key, tables.claims[req.key], now);
    } else if outcome.Fresh? {
      FreshIsFree(ledger, req, clock, now, run);
      FreshKeepsLedger(ledger, req.key, tables.claims[req.key], run, tables.runs[run],
                       Start(req.key, req.fingerprint, now, t, |ledger.started|), now);
    }
  }

  lemma FreshKeepsThreads(threads: map<ThreadId, Thread>, ledger: Ledger, t: ThreadId, run: RunId, ledger': Ledger,
                          now: Time)
    requires Coheres(ledger, now) && CommitsOk(ledger, now) && ThreadsOk(threads, ledger)
    requires t in threads && threads[t].Invoke? && threads[t].pc.Checked? && run !in ledger.started
    requires ledger'.started
      == ledger.started[run := Start(threads[t].req.key, threads[t].req.fingerprint, now, t, |ledger.started|)]
    requires ledger'.commits == ledger.commits && ledger'.orphans == ledger.orphans
    requires forall r :: IsRunning(ledger'.tables, r) ==> r == run || IsRunning(ledger.tables, r)
    ensures ThreadsOk(threads[t := threads[t].(pc := Begun(run))], ledger')
  {
    hide Coherent;
    OnlineKeeps(threads, ledger, t, Begun(run), ledger');
  }

  lemma BeginKeepsThreads(ledger: Ledger, threads: map<ThreadId, Thread>, t: ThreadId, clock: Time, now: Time,
                          run: RunId)
    requires LedgerOk(ledger, now) && ThreadsOk(threads, ledger) && clock <= now && run !in ledger.started
    requires t in threads && threads[t].Invoke? && threads[t].pc.Checked?
    ensures var (pc, ledger') := BeginLedger(ledger, threads[t].req, t, clock, now, run);
      ThreadsOk(threads[t := threads[t].(pc := pc)], ledger')
  {
    hide Coheres, CommitsOk, Windows, ThreadsOk, ThreadOk, Attended, Justified, Pending, Answer;
    var req := threads[t].req;
    var (outcome, _) := Begin(ledger.tables, req.key, req.fingerprint, clock, now, run);
    var (pc, ledger') := BeginLedger(ledger, req, t, clock, now, run);
    if outcome.Fresh? {
      FreshKeepsThreads(threads, ledger, t, run, ledger', now);
    } else {
      ReplayKeepsThreads(threads, ledger, t, pc, ledger', now);
    }
  }

  lemma ReplayKeepsThreads(threads: map<ThreadId, Thread>, ledger: Ledger, t: ThreadId, pc: Pc, ledger': Ledger,
                           now: Time)
    requires Coheres(ledger, now) && ThreadsOk(threads, ledger)
    requires t in threads && threads[t].Invoke? && threads[t].pc.Checked? && pc.Finished?
    requires ledger' == ledger.(tables := ledger'.tables) && ledger'.tables.runs == ledger.tables.runs
    requires pc.outcome.Rejected? || (pc.outcome.Replayed?
      && CommittedFor(ledger, pc.outcome.run, threads[t].req, pc.outcome.result) && !pc.outcome.result.retryable)
    ensures ThreadsOk(threads[t := threads[t].(pc := pc)], ledger')
  {
    hide Coherent;
    OnlineKeeps(threads, ledger, t, pc, ledger');
  }

  // finish_run

  function WithCommit(ledger: Ledger, key: Key, row: Claim, run: RunId, history: Run, commit: Commit): Ledger {
    ledger.(tables := Tables(ledger.tables.runs[run := history], ledger.tables.claims[key := row]),
            commits := ledger.commits[run := commit])
  }

  lemma CommitOrder(ledger: Ledger, ledger': Ledger, run: RunId)
    requires Ordered(ledger) && Windows(ledger) && IsRunning(ledger.tables, run) && ledger'.started == ledger.started
    requires forall r :: IsRunning(ledger'.tables, r) ==> IsRunning(ledger.tables, r)
    requires forall r :: r in ledger'.commits && r != run ==>
        r in ledger.commits && ledger'.commits[r] == ledger.commits[r]
    ensures Ordered(ledger') && Windows(ledger')
  {
  }

  lemma CommitCached(ledger: Ledger, ledger': Ledger, key: Key, run: RunId, now: Time)
    requires Cached(ledger, now) && run !in ledger.commits && HoldsClaim(ledger.tables, key, run)
    requires run in ledger'.commits && key in ledger'.tables.claims
    requires ledger'.commits == ledger.commits[run := ledger'.commits[run]] && ledger'.commits[run].key == key
    requires ledger'.tables.claims == ledger.tables.claims[key := ledger'.tables.claims[key]]
    requires ledger'.tables.claims[key].run == run && Backs(ledger'.tables.claims[key], ledger'.commits[run])
    ensures Cached(ledger', now)
  {
  }

  lemma CommitKeepsLedger(ledger: Ledger, key: Key, row: Claim, run: RunId, history: Run, commit: Commit, now: Time)
    requires LedgerOk(ledger, now) && run !in ledger.commits && HoldsClaim(ledger.tables, key, run)
    requires IsRunning(ledger.tables, run)
    requires !history.state.Running? && history.key == ledger.tables.runs[run].key
    requires history.fingerprint == ledger.tables.runs[run].fingerprint
    requires Backs(row, commit) && row.run == run
    requires commit.key == key && commit.at == now && SameRequest(ledger.started[run], commit)
    requires commit.result.retryable ==> commit.expires <= now
    requires Coherent(WithCommit(ledger, key, row, run, history, commit).tables, now)
    ensures LedgerOk(WithCommit(ledger, key, row, run, history, commit), now)
  {
    hide Coherent, Cached, Ordered, Windows, Backs;
    var ledger' := WithCommit(ledger, key, row, run, history, commit);
    CommitOrder(ledger, ledger', run);
    CommitCached(ledger, ledger', key, run, now);
  }

  lemma FinishKeepsLedger(c: Config, ledger: Ledger, req: Request, t: ThreadId, run: RunId, result: RunResult,
                          stamp: Time, now: Time)
    requires LedgerOk(ledger, now) && stamp <= now && StartedBy(ledger, run, t, req) && run !in ledger.commits
    ensures LedgerOk(FinishLedger(c, ledger, req, run, result, stamp, now).1, now)
  {
    hide Cached, Windows, CommitsOk, HistoryKept, Retained, WellFormed;
    FinishKeeps(ledger.tables, run, req.key, result, stamp, c.retention, now);
    var (outcome, tables) := Finish(ledger.tables, run, req.key, result, stamp, c.retention, now);
    if outcome.Committed? {
      var commit := RunnerCommit(req, result, Expiry(result, stamp, c.retention), now);
      CommitKeepsLedger(ledger, req.key, tables.claims[req.key], run, tables.runs[run], commit, now);
    }
  }

  function RunnerCommit(req: Request, result: RunResult, expires: Time, now: Time): Commit {
    Commit(req.key, req.fingerprint, result, expires, now)
  }

  lemma CommitKeepsThreads(threads: map<ThreadId, Thread>, ledger: Ledger, t: ThreadId, ledger': Ledger, commit: Commit,
                           now: Time)
    requires Coheres(ledger, now) && ThreadsOk(threads, ledger)
    requires t in threads && threads[t].Invoke? && threads[t].pc.Computed?
    requires commit.key == threads[t].req.key && commit.fingerprint == threads[t].req.fingerprint
    requires commit.result == threads[t].pc.result
    requires ledger' == ledger.(tables := ledger'.tables, commits := ledger.commits[threads[t].pc.run := commit])
    requires forall r :: IsRunning(ledger'.tables, r) ==> r != threads[t].pc.run && IsRunning(ledger.tables, r)
    ensures ThreadsOk(threads[t := threads[t].(pc := Persisted(threads[t].pc.run, threads[t].pc.w,
      threads[t].pc.result))], ledger')
  {
    hide Coherent;
    assert ThreadOk(t, threads[t], ledger);
    OnlineKeeps(threads, ledger, t, Persisted(threads[t].pc.run, threads[t].pc.w, threads[t].pc.result), ledger');
  }

  lemma LostKeepsThreads(threads: map<ThreadId, Thread>, ledger: Ledger, t: ThreadId, now: Time)
    requires Coheres(ledger, now) && ThreadsOk(threads, ledger)
    requires t in threads && threads[t].Invoke? && threads[t].pc.Computed?
    ensures ThreadsOk(threads[t := threads[t].(pc := Dooming(threads[t].pc.w, ThenAbandon(threads[t].pc.run)))], ledger)
  {
    hide Coherent;
    assert ThreadOk(t, threads[t], ledger);
    assert forall r :: r in ledger.tables.runs ==> Attended(r, threads, ledger);
    OnlineKeeps(threads, ledger, t, Dooming(threads[t].pc.w, ThenAbandon(threads[t].pc.run)), ledger);
  }

  lemma FinishKeepsThreads(c: Config, ledger: Ledger, threads: map<ThreadId, Thread>, t: ThreadId, stamp: Time,
                           now: Time)
    requires LedgerOk(ledger, now) && ThreadsOk(threads, ledger)
    requires t in threads && threads[t].Invoke? && threads[t].pc.Computed?
    ensures var (run, w, result) := (threads[t].pc.run, threads[t].pc.w, threads[t].pc.result);
      var (committed, ledger') := FinishLedger(c, ledger, threads[t].req, run, result, stamp, now);
      var pc := if committed then Persisted(run, w, result) else Dooming(w, ThenAbandon(run));
      ThreadsOk(threads[t := threads[t].(pc := pc)], ledger')
  {
    hide Coheres, CommitsOk, Cached, Windows, ThreadsOk;
    var (run, result) := (threads[t].pc.run, threads[t].pc.result);
    var (committed, ledger') := FinishLedger(c, ledger, threads[t].req, run, result, stamp, now);
    if committed {
      CommitKeepsThreads(threads, ledger, t, ledger', ledger'.commits[run], now);
    } else {
      LostKeepsThreads(threads, ledger, t, now);
    }
  }

  // ---------------------------------------------------------------- abandon_run and maintenance

  /** Tables that lost claims of running or expired requests only, and changed no terminal run. */
  ghost predicate Trimmed(t: Tables, t': Tables, now: Time) {
    && Coherent(t', now) && HistoryKept(t, t', {})
    && (forall k :: k in t'.claims ==> k in t.claims && t'.claims[k] == t.claims[k])
    && (forall k :: k in t.claims && Unexpired(t.claims[k], now) ==> k in t'.claims)
  }

  lemma TrimKeepsLedger(ledger: Ledger, tables: Tables, now: Time)
    requires LedgerOk(ledger, now) && Trimmed(ledger.tables, tables, now)
    ensures LedgerOk(ledger.(tables := tables), now)
  {
    hide Coheres, CommitsOk, Cached, Ordered, Windows, Trimmed;
    TrimCoheres(ledger, tables, now);
    TrimKeepsOrder(ledger, tables, now);
    TrimKeepsCached(ledger, tables, now);
    SameWindows(ledger, tables);
  }

  lemma TrimCoheres(ledger: Ledger, tables: Tables, now: Time)
    requires Coheres(ledger, now) && CommitsOk(ledger, now) && Trimmed(ledger.tables, tables, now)
    ensures Coheres(ledger.(tables := tables), now) && CommitsOk(ledger.(tables := tables), now)
  {
    hide Coherent;
  }

  lemma TrimKeepsOrder(ledger: Ledger, tables: Tables, now: Time)
    requires Ordered(ledger) && Trimmed(ledger.tables, tables, now)
    ensures Ordered(ledger.(tables := tables))
  {
    hide Coherent;
  }

  lemma TrimKeepsCached(ledger: Ledger, tables: Tables, now: Time)
    requires Cached(ledger, now) && Trimmed(ledger.tables, tables, now)
    ensures Cached(ledger.(tables := tables), now)
  {
    hide Coherent, HistoryKept;
  }

  lemma SameWindows(ledger: Ledger, tables: Tables)
    requires Windows(ledger)
    ensures Windows(ledger.(tables := tables))
  {
  }

  lemma TrimKeepsThreads(threads: map<ThreadId, Thread>, ledger: Ledger, tables: Tables, now: Time)
    requires ThreadsOk(threads, ledger) && Trimmed(ledger.tables, tables, now)
    ensures ThreadsOk(threads, ledger.(tables := tables))
  {
    hide Pending, Answer;
    var ledger' := ledger.(tables := tables);
    forall t | t in threads ensures ThreadOk(t, threads[t], ledger') {
      assert ThreadOk(t, threads[t], ledger);
    }
    forall r | r in tables.runs ensures Attended(r, threads, ledger') {
      assert Attended(r, threads, ledger);
    }
  }

  lemma AbandonTrims(t: Tables, run: RunId, key: Key, now: Time)
    requires Coherent(t, now) && (run in t.runs ==> t.runs[run].key == key)
    ensures Trimmed(t, Abandon(t, run, key, now), now)
  {
    AbandonKeeps(t, run, key, now);
  }

  lemma ResetTrims(t: Tables, now: Time)
    requires Coherent(t, now)
    ensures Trimmed(t, ResetRunning(t, now), now)
  {
    ResetKeeps(t, now);
  }

  lemma PurgeTrims(t: Tables, now: Time)
    requires Coherent(t, now)
    ensures Trimmed(t, PurgeExpired(t, now), now)
  {
    PurgeExpiredKeeps(t, now);
  }

  lemma PurgeHistoryTrims(t: Tables, olderThan: int, clock: Time, now: Time)
    requires Coherent(t, now)
    ensures Trimmed(t, PurgeOldRuns(t, olderThan, clock, now), now)
  {
    PurgeOldRunsKeeps(t, olderThan, clock, now);
  }

  lemma LaterKeepsLedger(ledger: Ledger, now: Time, later: Time)
    requires LedgerOk(ledger, now) && now <= later
    ensures LedgerOk(ledger, later)
  {
  }

  /** The thread gives its run up: it is no longer running, or it is an orphan now. */
  lemma GiveUpKeepsThreads(threads: map<ThreadId, Thread>, ledger: Ledger, t: ThreadId, ledger': Ledger)
    requires ThreadsOk(threads, ledger) && t in threads && threads[t].Invoke? && threads[t].pc.Abandoning?
    requires ledger'.started == ledger.started && ledger'.commits == ledger.commits && ledger.orphans <= ledger'.orphans
    requires forall r :: IsRunning(ledger'.tables, r) ==> IsRunning(ledger.tables, r) && r in ledger.started
    requires !IsRunning(ledger'.tables, threads[t].pc.run) || threads[t].pc.run in ledger'.orphans
    ensures ThreadsOk(threads[t := threads[t].(pc := Unwinding(Raised(threads[t].pc.run)))], ledger')
  {
    OnlineKeeps(threads, ledger, t, Unwinding(Raised(threads[t].pc.run)), ledger');
  }

  // ---------------------------------------------------------------- every step

  ghost predicate BooksOk(s: System) {
    LedgerOk(s.ledger, s.now) && ThreadsOk(s.threads, s.ledger)
  }

  predicate TrimStep(step: Step) {
    step.Reset? || step.Purge? || step.PurgeHistory?
  }

  lemma MaintenanceBooks(c: Config, s: System, step: Step)
    requires BooksOk(s) && TrimStep(step) && Apply(c, s, step).Some?
    ensures BooksOk(Apply(c, s, step).value)
  {
    hide Cached, CommitsOk, Windows, ThreadsOk, Trimmed;
    var tables := Apply(c, s, step).value.ledger.tables;
    assert Trimmed(s.ledger.tables, tables, s.now) by {
      if step.Reset? { ResetTrims(s.ledger.tables, s.now); }
      else if step.Purge? { PurgeTrims(s.ledger.tables, s.now); }
      else { PurgeHistoryTrims(s.ledger.tables, step.olderThan, step.clock, s.now); }
    }
    TrimKeepsLedger(s.ledger, tables, s.now);
    TrimKeepsThreads(s.threads, s.ledger, tables, s.now);
  }

  lemma RestartBooks(s: System)
    requires BooksOk(s)
    ensures BooksOk(RestartStep(s))
  {
    hide LedgerOk, Trimmed, ThreadsOk, ResetRunning, PurgeExpired;
    var reset := ResetRunning(s.ledger.tables, s.now);
    LedgerCoheres(s.ledger, s.now);
    ResetTrims(s.ledger.tables, s.now);
    TrimKeepsLedger(s.ledger, reset, s.now);
    LedgerCoheres(s.ledger.(tables := reset), s.now);
    PurgeTrims(reset, s.now);
    TrimKeepsLedger(s.ledger.(tables := reset), PurgeExpired(reset, s.now), s.now);
    ForgetOrphans(s.ledger.(tables := PurgeExpired(reset, s.now)), s.now);
    NothingRuns(s.ledger.tables, s.now);
    NobodyIsOwed(RestartStep(s).ledger);
  }

  lemma LedgerCoheres(ledger: Ledger, now: Time)
    requires LedgerOk(ledger, now)
    ensures Coherent(ledger.tables, now)
  {
    hide Coherent, CommitsOk, Cached, Ordered, Windows;
  }

  lemma NothingRuns(t: Tables, now: Time)
    ensures forall r :: !IsRunning(PurgeExpired(ResetRunning(t, now), now), r)
  {
  }

  lemma NobodyIsOwed(ledger: Ledger)
    requires forall r :: !IsRunning(ledger.tables, r)
    ensures ThreadsOk(map[], ledger)
  {
  }

  lemma ForgetOrphans(ledger: Ledger, now: Time)
    requires LedgerOk(ledger, now)
    ensures LedgerOk(ledger.(orphans := {}), now)
  {
    hide Coherent;
  }

  lemma AbandonBooks(s: System, t: ThreadId)
    requires BooksOk(s) && AbandonStep(s, t).Some?
    ensures BooksOk(AbandonStep(s, t).value)
  {
    hide Cached, CommitsOk, Windows, HistoryKept, Trimmed, Ordered, Abandon;
    var run := s.threads[t].pc.run;
    var ledger' := AbandonStep(s, t).value.ledger;
    assert ThreadOk(t, s.threads[t], s.ledger);
    AbandonTrims(s.ledger.tables, run, s.threads[t].req.key, s.now);
    TrimKeepsLedger(s.ledger, ledger'.tables, s.now);
    AbandonKeeps(s.ledger.tables, run, s.threads[t].req.key, s.now);
    hide Coherent, ThreadsOk;
    GiveUpKeepsThreads(s.threads, s.ledger, t, ledger');
  }

  lemma OrphanBooks(s: System, t: ThreadId)
    requires BooksOk(s) && AbandonRaisesStep(s, t).Some?
    ensures BooksOk(AbandonRaisesStep(s, t).value)
  {
    hide Cached, CommitsOk, Windows, HistoryKept, Ordered;
    var run := s.threads[t].pc.run;
    assert ThreadOk(t, s.threads[t], s.ledger);
    NewOrphan(s.ledger, run, s.now);
    hide Coherent, ThreadsOk;
    GiveUpKeepsThreads(s.threads, s.ledger, t, AbandonRaisesStep(s, t).value.ledger);
  }

  lemma GiveUpBooks(c: Config, s: System, step: Step)
    requires BooksOk(s) && (step.AbandonRun? || step.AbandonRaises?) && Apply(c, s, step).Some?
    ensures BooksOk(Apply(c, s, step).value)
  {
    hide BooksOk, AbandonStep, AbandonRaisesStep;
    if step.AbandonRun? { AbandonBooks(s, step.t); } else { OrphanBooks(s, step.t); }
  }

  lemma NewOrphan(ledger: Ledger, run: RunId, now: Time)
    requires LedgerOk(ledger, now)
    ensures LedgerOk(ledger.(orphans := ledger.orphans + {run}), now)
  {
    hide Coherent;
  }

  lemma BeginBooks(s: System, t: ThreadId, clock: Time, run: RunId)
    requires BooksOk(s) && BeginStep(s, t, clock, run).Some?
    ensures BooksOk(BeginStep(s, t, clock, run).value)
  {
    hide LedgerOk, ThreadsOk, BeginLedger;
    BeginKeepsLedger(s.ledger, s.threads[t].req, t, clock, s.now, run);
    BeginKeepsThreads(s.ledger, s.threads, t, clock, s.now, run);
  }

  lemma FinishBooks(c: Config, s: System, t: ThreadId, stamp: Time)
    requires BooksOk(s) && FinishStep(c, s, t, stamp).Some?
    ensures BooksOk(FinishStep(c, s, t, stamp).value)
  {
    hide LedgerOk, FinishLedger;
    assert ThreadOk(t, s.threads[t], s.ledger);
    hide ThreadsOk;
    FinishKeepsLedger(c, s.ledger, s.threads[t].req, t, s.threads[t].pc.run, s.threads[t].pc.result, stamp, s.now);
    FinishKeepsThreads(c, s.ledger, s.threads, t, stamp, s.now);
  }

  lemma BooksKept(c: Config, s: System, step: Step)
    requires BooksOk(s) && Apply(c, s, step).Some?
    ensures BooksOk(Apply(c, s, step).value)
  {
    hide LedgerOk, ThreadsOk, Offline, BeginStep, FinishStep, AbandonStep, AbandonRaisesStep, RestartStep;
    if step.BeginRun? { BeginBooks(s, step.t, step.clock, step.run); }
    else if step.FinishRun? { FinishBooks(c, s, step.t, step.stamp); }
    else if step.AbandonRun? || step.AbandonRaises? { GiveUpBooks(c, s, step); }
    else if step.Restart? { RestartBooks(s); }
    else if step.Tick? { LaterKeepsLedger(s.ledger, s.now, s.now + step.delta); }
    else if TrimStep(step) { MaintenanceBooks(c, s, step); }
    else {
      OfflineMoves(c, s, step);
      OfflineBooks(s, Apply(c, s, step).value, step.t);
    }
  }

  lemma OfflineBooks(s: System, s': System, t: ThreadId)
    requires BooksOk(s) && Offline(s, s', t)
    ensures BooksOk(s')
  {
    hide LedgerOk;
    OfflineKeeps(s, s', t);
  }
}
