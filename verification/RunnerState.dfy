/**
 * The durable runner state: execution history plus the short-lived replay table.
 *
 * Each transaction is a function on a pair of tables; class RunnerDB executes the
 * same transaction statement by statement and is proved to commit exactly that
 * function's result, or to leave both tables untouched when it raises.
 */
module RunnerState {
  import opened Prelude
  import opened RunnerModel

  datatype RunState = Running | Done | Abandoned

  datatype OutcomeClass = Success | RetryableFailure | UserFailure | InfrastructureFailure

  datatype Run = Run(
    key: Key,
    fingerprint: Fingerprint,
    state: RunState,
    outcome: Option<OutcomeClass>,
    replayable: bool,
    expires: Option<Time>,
    completedAt: Option<Time>,
    updatedAt: Time)

  datatype ClaimState = Claimed | Settled

  datatype Claim = Claim(
    fingerprint: Fingerprint,
    state: ClaimState,
    run: RunId,
    replayable: bool,
    result: Option<RunResult>,
    expires: Option<Time>,
    replays: nat)

  datatype Tables = Tables(runs: map<RunId, Run>, claims: map<Key, Claim>)

  // ---------------------------------------------------------------- transactions

  datatype BeginOutcome =
    | Conflict                    // key reused for different request content
    | InProgress                  // the same logical request is running
    | Replay(result: RunResult)   // a cached result is still valid
    | Fresh(run: RunId)           // a new execution was claimed

  predicate CacheValid(row: Claim, clock: Time) {
    && row.state.Settled?
    && row.replayable
    && row.result.Some?
    && row.expires.Some?
    && row.expires.value > clock
  }

  function NewRun(key: Key, fingerprint: Fingerprint, now: Time): Run {
    Run(key, fingerprint, Running, None, false, None, None, now)
  }

  /** `clock` is the Python clock read before the transaction, `now` the database clock inside it. */
  function Begin(t: Tables, key: Key, fingerprint: Fingerprint, clock: Time, now: Time,
                 run: RunId): (BeginOutcome, Tables) {
    if key in t.claims && t.claims[key].fingerprint != fingerprint then (Conflict, t)
    else if key in t.claims && t.claims[key].state.Claimed? then (InProgress, t)
    else if key in t.claims && CacheValid(t.claims[key], clock) then
      var row := t.claims[key];
      (Replay(row.result.value), t.(claims := t.claims[key := row.(replays := row.replays + 1)]))
    else
      var replays := if key in t.claims then t.claims[key].replays else 0;
      (Fresh(run), Tables(t.runs[run := NewRun(key, fingerprint, now)],
                          t.claims[key := Claim(fingerprint, Claimed, run, false, None, None, replays)]))
  }

  function Outcome(result: RunResult): OutcomeClass {
    if result.status == "SUCCEEDED" then Success
    else if result.retryable then RetryableFailure
    else UserFailure
  }

  datatype FinishOutcome = Committed | RunStateLost | IdempotencyStateLost

  predicate IsRunning(t: Tables, run: RunId) {
    run in t.runs && t.runs[run].state.Running?
  }

  predicate HoldsClaim(t: Tables, key: Key, run: RunId) {
    key in t.claims && t.claims[key].run == run && t.claims[key].state.Claimed?
  }

  function Expiry(result: RunResult, stamp: Time, retention: int): Time {
    if result.retryable then stamp else stamp + retention
  }

  function Completed(row: Run, result: RunResult, expires: Time, now: Time): Run {
    row.(state := Done, outcome := Some(Outcome(result)), replayable := !result.retryable,
         expires := Some(expires), completedAt := Some(now), updatedAt := now)
  }

  function SettledClaim(row: Claim, result: RunResult, expires: Time): Claim {
    row.(state := Settled, replayable := !result.retryable, result := Some(result), expires := Some(expires))
  }

  /** `stamp` is the clock read before the transaction started. */
  function Finish(t: Tables, run: RunId, key: Key, result: RunResult, stamp: Time, retention: int,
                  now: Time): (FinishOutcome, Tables) {
    if !IsRunning(t, run) then (RunStateLost, t)
    else if !HoldsClaim(t, key, run) then (IdempotencyStateLost, t)
    else
      var expires := Expiry(result, stamp, retention);
      (Committed, Tables(t.runs[run := Completed(t.runs[run], result, expires, now)],
                         t.claims[key := SettledClaim(t.claims[key], result, expires)]))
  }

  function Broken(row: Run, now: Time): Run {
    row.(state := Abandoned, outcome := Some(InfrastructureFailure), replayable := false,
         expires := Some(now), completedAt := Some(now), updatedAt := now)
  }

  function Abandon(t: Tables, run: RunId, key: Key, now: Time): Tables {
    Tables(if IsRunning(t, run) then t.runs[run := Broken(t.runs[run], now)] else t.runs,
           if HoldsClaim(t, key, run) then t.claims - {key} else t.claims)
  }

  function ResetRunning(t: Tables, now: Time): Tables {
    Tables(map r | r in t.runs :: if t.runs[r].state.Running? then Broken(t.runs[r], now) else t.runs[r],
           map k | k in t.claims && !t.claims[k].state.Claimed? :: t.claims[k])
  }

  predicate Lapsed(row: Claim, now: Time) {
    row.state.Settled? && row.expires.Some? && row.expires.value <= now
  }

  function PurgeExpired(t: Tables, now: Time): Tables {
    t.(claims := map k | k in t.claims && !Lapsed(t.claims[k], now) :: t.claims[k])
  }

  function EndTime(row: Run): Time {
    if row.completedAt.Some? then row.completedAt.value else row.updatedAt
  }

  /** Some settled, unexpired claim still points at this run. */
  predicate Pinned(t: Tables, run: RunId, now: Time) {
    exists k :: k in t.claims && t.claims[k].run == run && t.claims[k].state.Settled?
      && t.claims[k].expires.Some? && t.claims[k].expires.value > now
  }

  predicate Outdated(t: Tables, run: RunId, cutoff: Time, now: Time)
    requires run in t.runs
  {
    !t.runs[run].state.Running? && EndTime(t.runs[run]) < cutoff && !Pinned(t, run, now)
  }

  function OutdatedRuns(t: Tables, cutoff: Time, now: Time): (gone: set<RunId>)
    ensures gone <= t.runs.Keys
  {
    set r | r in t.runs && Outdated(t, r, cutoff, now)
  }

  function PurgeOldRuns(t: Tables, olderThan: int, clock: Time, now: Time): Tables {
    if olderThan <= 0 then t
    else t.(runs := map r | r in t.runs && !Outdated(t, r, clock - olderThan, now) :: t.runs[r])
  }

  // ---------------------------------------------------------------- what each transaction does, row by row

  /** A stored result that a request of this fingerprint may still be answered with. */
  predicate Answerable(row: Claim, fingerprint: Fingerprint, result: RunResult, clock: Time) {
    && row.fingerprint == fingerprint && row.state == Settled
    && row.replayable && row.result == Some(result) && row.expires.Some? && clock < row.expires.value
  }

  /** begin_run refuses other content and running requests, repeats a stored answer, or claims the key anew. */
  ghost predicate Begins(t: Tables, t': Tables, outcome: BeginOutcome, key: Key, fingerprint: Fingerprint, clock: Time,
                         now: Time, run: RunId) {
    && (outcome == Conflict <==> key in t.claims && t.claims[key].fingerprint != fingerprint)
    && (outcome == InProgress <==>
          key in t.claims && t.claims[key].fingerprint == fingerprint && t.claims[key].state == Claimed)
    && (forall result :: outcome == Replay(result) <==>
          key in t.claims && Answerable(t.claims[key], fingerprint, result, clock))
    && (outcome.Fresh? ==> outcome == Fresh(run))
    && (outcome.Conflict? || outcome.InProgress? ==> t' == t)
    && (outcome.Replay? ==>
          && key in t.claims && Answerable(t.claims[key], fingerprint, outcome.result, clock)
          && t' == Counted(t, key, t.claims[key].replays + 1))
    && (outcome.Fresh? ==>
          && t'.runs == t.runs[run := Run(key, fingerprint, Running, None, false, None, None, now)]
          && key in t'.claims && t'.claims == t.claims[key := t'.claims[key]]
          && Claims(t'.claims[key], fingerprint, run)
          && t'.claims[key].replays == if key in t.claims then t.claims[key].replays else 0)
  }

  predicate Claims(row: Claim, fingerprint: Fingerprint, run: RunId) {
    && row.fingerprint == fingerprint && row.state == Claimed && row.run == run
    && !row.replayable && row.result == None && row.expires == None
  }

  function Counted(t: Tables, key: Key, replays: nat): Tables
    requires key in t.claims
  {
    t.(claims := t.claims[key := t.claims[key].(replays := replays)])
  }

  lemma BeginsSpec(t: Tables, key: Key, fingerprint: Fingerprint, clock: Time, now: Time, run: RunId)
    ensures var (outcome, t') := Begin(t, key, fingerprint, clock, now, run);
      Begins(t, t', outcome, key, fingerprint, clock, now, run)
  {
  }

  /** Final results are kept for the retention period, results to be retried for no time at all. */
  predicate Keeps(expires: Option<Time>, result: RunResult, stamp: Time, retention: int) {
    expires.Some? && expires.value == stamp + if result.retryable then 0 else retention
  }

  predicate Classed(outcome: OutcomeClass, result: RunResult) {
    match outcome
    case Success => result.status == "SUCCEEDED"
    case RetryableFailure => result.status != "SUCCEEDED" && result.retryable
    case UserFailure => result.status != "SUCCEEDED" && !result.retryable
    case InfrastructureFailure => false
  }

  /** The history row of a run that was committed with this result. */
  predicate Concludes(row: Run, row': Run, result: RunResult, stamp: Time, retention: int, now: Time) {
    && row'.key == row.key && row'.fingerprint == row.fingerprint && row'.state == Done
    && row'.outcome.Some? && Classed(row'.outcome.value, result)
    && row'.replayable == !result.retryable && Keeps(row'.expires, result, stamp, retention)
    && row'.completedAt == Some(now) && row'.updatedAt == now
  }

  /** The claim of that run afterwards. */
  predicate Settles(row: Claim, row': Claim, result: RunResult, stamp: Time, retention: int) {
    && row'.fingerprint == row.fingerprint && row'.run == row.run && row'.replays == row.replays
    && row'.state == Settled && row'.result == Some(result)
    && row'.replayable == !result.retryable && Keeps(row'.expires, result, stamp, retention)
  }

  /** finish_run commits exactly when the run is running and holds its claim, and then in both tables. */
  ghost predicate Finishes(t: Tables, t': Tables, outcome: FinishOutcome, run: RunId, key: Key, result: RunResult,
                           stamp: Time, retention: int, now: Time) {
    && (outcome == RunStateLost <==> !(run in t.runs && t.runs[run].state == Running))
    && (outcome == Committed <==>
          && run in t.runs && t.runs[run].state == Running
          && key in t.claims && t.claims[key].run == run && t.claims[key].state == Claimed)
    && (outcome != Committed ==> t' == t)
    && (outcome == Committed ==>
          && run in t.runs && run in t'.runs && t'.runs == t.runs[run := t'.runs[run]]
          && Concludes(t.runs[run], t'.runs[run], result, stamp, retention, now)
          && key in t.claims && key in t'.claims && t'.claims == t.claims[key := t'.claims[key]]
          && Settles(t.claims[key], t'.claims[key], result, stamp, retention))
  }

  lemma FinishesSpec(t: Tables, run: RunId, key: Key, result: RunResult, stamp: Time, retention: int, now: Time)
    ensures var (outcome, t') := Finish(t, run, key, result, stamp, retention, now);
      Finishes(t, t', outcome, run, key, result, stamp, retention, now)
  {
  }

  /** The history row of a running execution that was given up; any other row stays. */
  predicate GivenUp(row: Run, row': Run, now: Time) {
    if row.state != Running then row' == row
    else
      && row'.key == row.key && row'.fingerprint == row.fingerprint && row'.state == Abandoned
      && row'.outcome == Some(InfrastructureFailure) && !row'.replayable && row'.expires == Some(now)
      && row'.completedAt == Some(now) && row'.updatedAt == now
  }

  /** abandon_run gives up this run and drops exactly the claim it holds. */
  ghost predicate Abandons(t: Tables, t': Tables, run: RunId, key: Key, now: Time) {
    && t'.runs.Keys == t.runs.Keys && (run in t.runs ==> GivenUp(t.runs[run], t'.runs[run], now))
    && (forall r :: r in t.runs && r != run ==> t'.runs[r] == t.runs[r])
    && (forall k :: k in t'.claims <==>
          k in t.claims && !(k == key && t.claims[k].run == run && t.claims[k].state == Claimed))
    && (forall k :: k in t'.claims ==> t'.claims[k] == t.claims[k])
  }

  lemma AbandonsSpec(t: Tables, run: RunId, key: Key, now: Time)
    ensures Abandons(t, Abandon(t, run, key, now), run, key, now)
  {
  }

  /** reset_running gives up every running execution and drops exactly the running claims. */
  ghost predicate Resets(t: Tables, t': Tables, now: Time) {
    && t'.runs.Keys == t.runs.Keys && (forall r :: r in t.runs ==> GivenUp(t.runs[r], t'.runs[r], now))
    && (forall k :: k in t'.claims <==> k in t.claims && t.claims[k].state == Settled)
    && (forall k :: k in t'.claims ==> t'.claims[k] == t.claims[k])
  }

  lemma ResetsSpec(t: Tables, now: Time)
    ensures Resets(t, ResetRunning(t, now), now)
  {
  }

  /** The claims that stay are exactly the running ones and the settled ones that have time left or no end. */
  ghost predicate Expires(t: Tables, t': Tables, now: Time) {
    && t'.runs == t.runs
    && (forall k :: k in t'.claims <==>
          && k in t.claims
          && (t.claims[k].state == Claimed || t.claims[k].expires.None? || now < t.claims[k].expires.value))
    && (forall k :: k in t'.claims ==> t'.claims[k] == t.claims[k])
  }

  lemma ExpiresSpec(t: Tables, now: Time)
    ensures Expires(t, PurgeExpired(t, now), now)
  {
  }

  /** Settled, and with time left. */
  predicate Needs(row: Claim, run: RunId, now: Time) {
    row.run == run && row.state == Settled && row.expires.Some? && now < row.expires.value
  }

  /** A purged run has ended, before the cutoff, and no unexpired claim needs it; no other run is purged. */
  ghost predicate Forgets(t: Tables, t': Tables, olderThan: int, clock: Time, now: Time) {
    && t'.claims == t.claims
    && (forall r :: r in t'.runs ==> r in t.runs && t'.runs[r] == t.runs[r])
    && (forall r :: r in t.runs ==> (r !in t'.runs <==>
          && olderThan > 0 && t.runs[r].state != Running
          && (if t.runs[r].completedAt.Some? then t.runs[r].completedAt.value else t.runs[r].updatedAt)
               + olderThan < clock
          && forall k :: k in t.claims ==> !Needs(t.claims[k], r, now)))
  }

  lemma ForgetsSpec(t: Tables, olderThan: int, clock: Time, now: Time)
    ensures Forgets(t, PurgeOldRuns(t, olderThan, clock, now), olderThan, clock, now)
  {
  }

  // ---------------------------------------------------------------- what the tables keep

  /** RUNNING runs and RUNNING claims are in one-to-one correspondence, key and fingerprint included. */
  ghost predicate Matched(t: Tables) {
    && (forall r :: r in t.runs && t.runs[r].state.Running? ==>
          HoldsClaim(t, t.runs[r].key, r) && t.claims[t.runs[r].key].fingerprint == t.runs[r].fingerprint)
    && (forall k :: k in t.claims && t.claims[k].state.Claimed? ==>
          IsRunning(t, t.claims[k].run) && t.runs[t.claims[k].run].key == k)
  }

  /** A settled claim carries a result, replayable exactly when that result is final. */
  ghost predicate WellFormed(t: Tables) {
    && (forall k :: k in t.claims && t.claims[k].state.Settled? ==>
          && t.claims[k].result.Some? && t.claims[k].expires.Some?
          && t.claims[k].replayable == !t.claims[k].result.value.retryable)
    && (forall r :: r in t.runs ==> (t.runs[r].completedAt.None? <==> t.runs[r].state.Running?))
  }

  predicate Unexpired(row: Claim, now: Time) {
    row.state.Settled? && row.expires.Some? && row.expires.value > now
  }

  /** Every settled claim that has not expired still has its finished run in the history. */
  ghost predicate Retained(t: Tables, now: Time) {
    forall k :: k in t.claims && Unexpired(t.claims[k], now) ==>
      var r := t.claims[k].run;
      && r in t.runs && t.runs[r].state.Done? && t.runs[r].key == k
      && t.runs[r].fingerprint == t.claims[k].fingerprint
  }

  ghost predicate Coherent(t: Tables, now: Time) {
    Matched(t) && WellFormed(t) && Retained(t, now)
  }

  /** Terminal rows never change again; a transaction adds at most the run in `issued`. */
  ghost predicate HistoryKept(t: Tables, t': Tables, issued: set<RunId>) {
    && t'.runs.Keys <= t.runs.Keys + issued
    && (forall r :: r in t.runs && r in t'.runs ==>
          && t'.runs[r].key == t.runs[r].key && t'.runs[r].fingerprint == t.runs[r].fingerprint
          && (!t.runs[r].state.Running? ==> t'.runs[r] == t.runs[r]))
    && (forall r :: r in t.runs && t.runs[r].state.Running? ==> r in t'.runs)
  }

  lemma BeginKeeps(t: Tables, key: Key, fingerprint: Fingerprint, clock: Time, now: Time, run: RunId)
    requires Coherent(t, now) && run !in t.runs
    ensures Coherent(Begin(t, key, fingerprint, clock, now, run).1, now)
    ensures HistoryKept(t, Begin(t, key, fingerprint, clock, now, run).1, {run})
    ensures var (outcome, t') := Begin(t, key, fingerprint, clock, now, run);
      && Begins(t, t', outcome, key, fingerprint, clock, now, run)
      && (forall result :: outcome == Replay(result) <==>
            && key in t.claims && t.claims[key].fingerprint == fingerprint && t.claims[key].state == Settled
            && FinalUntil(t.claims[key], result, clock))
      && (outcome == Fresh(run) <==>
            key in t.claims ==>
              && t.claims[key].fingerprint == fingerprint && t.claims[key].state == Settled
              && forall result :: !FinalUntil(t.claims[key], result, clock))
  {
    hide Matched, WellFormed, Retained, HistoryKept, Begins;
    var (outcome, t') := Begin(t, key, fingerprint, clock, now, run);
    BeginsSpec(t, key, fingerprint, clock, now, run);
    BeginAnswers(t, key, fingerprint, clock, now, run);
    hide CacheValid, FinalUntil;
    if outcome.Fresh? {
      FreshKeeps(t, key, t'.claims[key], run, t'.runs[run], now);
    } else if outcome.Replay? {
      CountKeeps(t, key, t'.claims[key].replays, now);
    } else {
      UnchangedKeeps(t, run);
    }
  }

  /** The stored result is this one, it is not to be retried, and its time is not up. */
  predicate FinalUntil(row: Claim, result: RunResult, clock: Time) {
    row.result == Some(result) && !result.retryable && row.expires.Some? && clock < row.expires.value
  }

  lemma BeginAnswers(t: Tables, key: Key, fingerprint: Fingerprint, clock: Time, now: Time, run: RunId)
    requires WellFormed(t)
    ensures var outcome := Begin(t, key, fingerprint, clock, now, run).0;
      && (forall result :: outcome == Replay(result) <==>
            && key in t.claims && t.claims[key].fingerprint == fingerprint && t.claims[key].state == Settled
            && FinalUntil(t.claims[key], result, clock))
      && (outcome == Fresh(run) <==>
            key in t.claims ==>
              && t.claims[key].fingerprint == fingerprint && t.claims[key].state == Settled
              && forall result :: !FinalUntil(t.claims[key], result, clock))
  {
    if key in t.claims && t.claims[key].result.Some? {
      assert FinalUntil(t.claims[key], t.claims[key].result.value, clock) <==>
        !t.claims[key].result.value.retryable && t.claims[key].expires.Some? && clock < t.claims[key].expires.value;
    }
  }

  lemma UnchangedKeeps(t: Tables, run: RunId)
    ensures HistoryKept(t, t, {run})
  {
  }

  lemma CountKeepsMatched(t: Tables, key: Key, replays: nat)
    requires Matched(t) && key in t.claims
    ensures Matched(Counted(t, key, replays))
  {
    var t' := Counted(t, key, replays);
    forall k | k in t'.claims && t'.claims[k].state.Claimed?
      ensures IsRunning(t', t'.claims[k].run) && t'.runs[t'.claims[k].run].key == k
    {
      assert IsRunning(t, t.claims[k].run);
    }
  }

  lemma CountKeepsRest(t: Tables, key: Key, replays: nat, now: Time)
    requires WellFormed(t) && Retained(t, now) && key in t.claims
    ensures WellFormed(Counted(t, key, replays)) && Retained(Counted(t, key, replays), now)
  {
  }

  lemma CountKeepsHistory(t: Tables, key: Key, replays: nat)
    requires key in t.claims
    ensures forall run :: HistoryKept(t, Counted(t, key, replays), {run})
  {
  }

  /** Counting a replay touches nothing else. */
  lemma CountKeeps(t: Tables, key: Key, replays: nat, now: Time)
    requires Coherent(t, now) && key in t.claims
    ensures forall run :: HistoryKept(t, Counted(t, key, replays), {run})
    ensures Coherent(Counted(t, key, replays), now)
  {
    hide Matched, WellFormed, Retained, HistoryKept, Counted;
    CountKeepsMatched(t, key, replays);
    CountKeepsRest(t, key, replays, now);
    CountKeepsHistory(t, key, replays);
  }

  /** A fresh run takes over a claim that is not running. */
  lemma FreshKeeps(t: Tables, key: Key, row: Claim, run: RunId, history: Run, now: Time)
    requires Coherent(t, now) && run !in t.runs && (key in t.claims ==> !t.claims[key].state.Claimed?)
    requires row.state.Claimed? && row.run == run && history.state.Running? && history.completedAt.None?
    requires history.key == key && history.fingerprint == row.fingerprint
    ensures Coherent(Tables(t.runs[run := history], t.claims[key := row]), now)
    ensures HistoryKept(t, Tables(t.runs[run := history], t.claims[key := row]), {run})
  {
    var t' := Tables(t.runs[run := history], t.claims[key := row]);
    forall k | k in t'.claims && t'.claims[k].state.Claimed?
      ensures IsRunning(t', t'.claims[k].run) && t'.runs[t'.claims[k].run].key == k
    {
      if k != key { assert IsRunning(t, t.claims[k].run); }
    }
  }

  /** The second update of finish_run never misses: only the first check can lose the claim. */
  lemma FinishKeeps(t: Tables, run: RunId, key: Key, result: RunResult, stamp: Time, retention: int, now: Time)
    requires Coherent(t, now)
    requires run in t.runs ==> t.runs[run].key == key
    ensures var (outcome, t') := Finish(t, run, key, result, stamp, retention, now);
      && Coherent(t', now) && HistoryKept(t, t', {})
      && (outcome.Committed? <==> IsRunning(t, run))
      && outcome != IdempotencyStateLost
      && Finishes(t, t', outcome, run, key, result, stamp, retention, now)
  {
    FinishesSpec(t, run, key, result, stamp, retention, now);
    hide Finishes;
    var t' := Finish(t, run, key, result, stamp, retention, now).1;
    forall k | k in t'.claims && t'.claims[k].state.Claimed?
      ensures IsRunning(t', t'.claims[k].run) && t'.runs[t'.claims[k].run].key == k
    {
      assert IsRunning(t, t.claims[k].run);
    }
  }

  lemma AbandonKeeps(t: Tables, run: RunId, key: Key, now: Time)
    requires Coherent(t, now)
    requires run in t.runs ==> t.runs[run].key == key
    ensures Coherent(Abandon(t, run, key, now), now)
    ensures HistoryKept(t, Abandon(t, run, key, now), {})
    ensures !IsRunning(Abandon(t, run, key, now), run)
    ensures forall k :: k in t.claims && t.claims[k].state.Settled? ==>
              k in Abandon(t, run, key, now).claims && Abandon(t, run, key, now).claims[k] == t.claims[k]
    ensures Abandons(t, Abandon(t, run, key, now), run, key, now)
  {
    AbandonsSpec(t, run, key, now);
    hide Abandons;
    var t' := Abandon(t, run, key, now);
    assert IsRunning(t, run) <==> HoldsClaim(t, key, run);
    forall k | k in t'.claims && t'.claims[k].state.Claimed?
      ensures IsRunning(t', t'.claims[k].run) && t'.runs[t'.claims[k].run].key == k
    {
      assert IsRunning(t, t.claims[k].run);
    }
  }

  lemma ResetKeeps(t: Tables, now: Time)
    requires Coherent(t, now)
    ensures Coherent(ResetRunning(t, now), now)
    ensures HistoryKept(t, ResetRunning(t, now), {})
    ensures forall r :: !IsRunning(ResetRunning(t, now), r)
    ensures Resets(t, ResetRunning(t, now), now)
  {
  }

  lemma PurgeExpiredKeeps(t: Tables, now: Time)
    requires Coherent(t, now)
    ensures Coherent(PurgeExpired(t, now), now)
    ensures HistoryKept(t, PurgeExpired(t, now), {})
    ensures Expires(t, PurgeExpired(t, now), now)
  {
    ExpiresSpec(t, now);
    hide Expires;
    var t' := PurgeExpired(t, now);
    forall r | r in t'.runs && t'.runs[r].state.Running?
      ensures HoldsClaim(t', t'.runs[r].key, r) && t'.claims[t'.runs[r].key].fingerprint == t'.runs[r].fingerprint
    {
      assert HoldsClaim(t, t.runs[r].key, r);
    }
    forall k | k in t'.claims && t'.claims[k].state.Claimed?
      ensures IsRunning(t', t'.claims[k].run) && t'.runs[t'.claims[k].run].key == k
    {
      assert IsRunning(t, t.claims[k].run);
    }
  }

  lemma PurgeOldRunsKeeps(t: Tables, olderThan: int, clock: Time, now: Time)
    requires Coherent(t, now)
    ensures Coherent(PurgeOldRuns(t, olderThan, clock, now), now)
    ensures HistoryKept(t, PurgeOldRuns(t, olderThan, clock, now), {})
    ensures Forgets(t, PurgeOldRuns(t, olderThan, clock, now), olderThan, clock, now)
  {
    ForgetsSpec(t, olderThan, clock, now);
    hide Forgets;
    var t' := PurgeOldRuns(t, olderThan, clock, now);
    forall k | k in t'.claims && t'.claims[k].state.Claimed?
      ensures IsRunning(t', t'.claims[k].run) && t'.runs[t'.claims[k].run].key == k
    {
      assert IsRunning(t, t.claims[k].run);
    }
    forall k | k in t'.claims && t'.claims[k].state.Settled? && t'.claims[k].expires.Some?
      && t'.claims[k].expires.value > now
      ensures var r := t'.claims[k].run; r in t'.runs && t'.runs[r] == t.runs[r]
    {
      assert Pinned(t, t.claims[k].run, now);
    }
  }

  // ---------------------------------------------------------------- the database object

  lemma BeginKeepsFrom(t: Tables, key: Key, fingerprint: Fingerprint, clock: Time, now: Time, run: RunId)
    ensures run !in t.runs ==> KeptFrom(t, Begin(t, key, fingerprint, clock, now, run).1, {run}, now)
  {
    hide Coherent, HistoryKept;
    if run !in t.runs && Coherent(t, now) { BeginKeeps(t, key, fingerprint, clock, now, run); }
  }

  lemma FinishKeepsFrom(t: Tables, run: RunId, key: Key, result: RunResult, stamp: Time, retention: int, now: Time)
    ensures (run in t.runs ==> t.runs[run].key == key) ==>
      KeptFrom(t, Finish(t, run, key, result, stamp, retention, now).1, {}, now)
  {
    hide Coherent, HistoryKept;
    if (run in t.runs ==> t.runs[run].key == key) && Coherent(t, now) {
      FinishKeeps(t, run, key, result, stamp, retention, now);
    }
  }

  lemma AbandonKeepsFrom(t: Tables, run: RunId, key: Key, now: Time)
    ensures (run in t.runs ==> t.runs[run].key == key) ==> KeptFrom(t, Abandon(t, run, key, now), {}, now)
  {
    hide Coherent, HistoryKept;
    if (run in t.runs ==> t.runs[run].key == key) && Coherent(t, now) { AbandonKeeps(t, run, key, now); }
  }

  lemma ResetKeepsFrom(t: Tables, now: Time)
    ensures KeptFrom(t, ResetRunning(t, now), {}, now)
  {
    hide Coherent, HistoryKept;
    if Coherent(t, now) { ResetKeeps(t, now); }
  }

  lemma PurgeExpiredKeepsFrom(t: Tables, now: Time)
    ensures KeptFrom(t, PurgeExpired(t, now), {}, now)
  {
    hide Coherent, HistoryKept;
    if Coherent(t, now) { PurgeExpiredKeeps(t, now); }
  }

  lemma PurgeOldRunsKeepsFrom(t: Tables, olderThan: int, clock: Time, now: Time)
    ensures KeptFrom(t, PurgeOldRuns(t, olderThan, clock, now), {}, now)
  {
    hide Coherent, HistoryKept;
    if Coherent(t, now) { PurgeOldRunsKeeps(t, olderThan, clock, now); }
  }

  lemma RowsWithout<K, V>(rows: map<K, V>, gone: set<K>)
    requires gone <= rows.Keys
    ensures |rows - gone| + |gone| == |rows|
  {
    assert (rows - gone).Keys + gone == rows.Keys;
  }

  lemma PurgedClaims(t: Tables, gone: set<Key>, now: Time)
    requires gone == set k | k in t.claims && Lapsed(t.claims[k], now)
    ensures PurgeExpired(t, now) == t.(claims := t.claims - gone)
  {
    hide Lapsed;
  }

  lemma PurgedRuns(t: Tables, olderThan: int, clock: Time, now: Time)
    ensures PurgeOldRuns(t, olderThan, clock, now)
      == if olderThan <= 0 then t else t.(runs := t.runs - OutdatedRuns(t, clock - olderThan, now))
  {
    hide Outdated;
  }

  /** A transaction kept the tables coherent and changed no terminal run. */
  ghost predicate KeptFrom(t: Tables, t': Tables, issued: set<RunId>, now: Time) {
    Coherent(t, now) ==> Coherent(t', now) && HistoryKept(t, t', issued)
  }

  class RunnerDB {
    var runs: map<RunId, Run>
    var claims: map<Key, Claim>

    function Contents(): Tables
      reads this
    {
      Tables(runs, claims)
    }

    constructor ()
      ensures Contents() == Tables(map[], map[])
    {
      runs, claims := map[], map[];
    }

    method BeginRun(key: Key, fingerprint: Fingerprint, clock: Time, now: Time,
                    uuid: RunId) returns (outcome: BeginOutcome)
      modifies this
      ensures (outcome, Contents()) == Begin(old(Contents()), key, fingerprint, clock, now, uuid)
      ensures uuid !in old(runs) ==> KeptFrom(old(Contents()), Contents(), {uuid}, now)
      ensures Begins(old(Contents()), Contents(), outcome, key, fingerprint, clock, now, uuid)
    {
      BeginsSpec(Contents(), key, fingerprint, clock, now, uuid);
      BeginKeepsFrom(Contents(), key, fingerprint, clock, now, uuid);
      hide KeptFrom, Begins;
      var row := if key in claims then Some(claims[key]) else None;
      if row.Some? {
        if row.value.fingerprint != fingerprint {
          return Conflict;
        }
        if row.value.state == Claimed {
          return InProgress;
        }
        if CacheValid(row.value, clock) {
          claims := claims[key := row.value.(replays := row.value.replays + 1)];
          return Replay(row.value.result.value);
        }
      }
      if row.None? {
        claims := claims[key := Claim(fingerprint, Claimed, uuid, false, None, None, 0)];
      } else {
        claims := claims[key := row.value.(state := Claimed, run := uuid, replayable := false, result := None,
          expires := None)];
      }
      runs := runs[uuid := NewRun(key, fingerprint, now)];
      return Fresh(uuid);
    }

    /** Two updates in one transaction: the second one missing rolls the first one back. */
    method FinishRun(run: RunId, key: Key, result: RunResult, stamp: Time, retention: int,
                     now: Time) returns (outcome: FinishOutcome)
      modifies this
      ensures (outcome, Contents()) == Finish(old(Contents()), run, key, result, stamp, retention, now)
      ensures (run in old(runs) ==> old(runs)[run].key == key) ==> KeptFrom(old(Contents()), Contents(), {}, now)
      ensures Finishes(old(Contents()), Contents(), outcome, run, key, result, stamp, retention, now)
    {
      FinishesSpec(Contents(), run, key, result, stamp, retention, now);
      FinishKeepsFrom(Contents(), run, key, result, stamp, retention, now);
      hide KeptFrom, Finishes;
      var replayable := !result.retryable;
      var expires := stamp;
      if replayable {
        expires := expires + retention;
      }
      var savepoint := runs;
      var rowcount := 0;
      if run in runs && runs[run].state == Running {
        runs := runs[run := Completed(runs[run], result, expires, now)];
        rowcount := 1;
      }
      if rowcount != 1 {
        return RunStateLost;
      }
      rowcount := 0;
      if key in claims && claims[key].run == run && claims[key].state == Claimed {
        claims := claims[key := SettledClaim(claims[key], result, expires)];
        rowcount := 1;
      }
      if rowcount != 1 {
        runs := savepoint;
        return IdempotencyStateLost;
      }
      return Committed;
    }

    method AbandonRun(run: RunId, key: Key, now: Time)
      modifies this
      ensures Contents() == Abandon(old(Contents()), run, key, now)
      ensures (run in old(runs) ==> old(runs)[run].key == key) ==> KeptFrom(old(Contents()), Contents(), {}, now)
      ensures Abandons(old(Contents()), Contents(), run, key, now)
    {
      AbandonsSpec(Contents(), run, key, now);
      AbandonKeepsFrom(Contents(), run, key, now);
      hide KeptFrom, Abandons;
      if run in runs && runs[run].state == Running {
        runs := runs[run := Broken(runs[run], now)];
      }
      if key in claims && claims[key].run == run && claims[key].state == Claimed {
        claims := claims - {key};
      }
    }

    /** Returns the number of executions it converted into history. */
    method Reset(now: Time) returns (rowcount: nat)
      modifies this
      ensures Contents() == ResetRunning(old(Contents()), now)
      ensures KeptFrom(old(Contents()), Contents(), {}, now)
      ensures rowcount == |set r | r in old(runs) && old(runs)[r].state.Running?|
      ensures Resets(old(Contents()), Contents(), now)
    {
      ResetsSpec(Contents(), now);
      hide KeptFrom, Resets;
      ResetKeepsFrom(Contents(), now);
      var stale := set r | r in runs && runs[r].state.Running?;
      rowcount := |stale|;
      runs := map r | r in runs :: if r in stale then Broken(runs[r], now) else runs[r];
      claims := map k | k in claims && claims[k].state != Claimed :: claims[k];
    }

    method PurgeExpiredIdempotency(now: Time) returns (rowcount: nat)
      modifies this
      ensures Contents() == PurgeExpired(old(Contents()), now)
      ensures |claims| + rowcount == |old(claims)| && Expires(old(Contents()), Contents(), now)
      ensures KeptFrom(old(Contents()), Contents(), {}, now)
    {
      ExpiresSpec(Contents(), now);
      hide Expires, Lapsed, KeptFrom, PurgeExpired;
      var gone := set k | k in claims && Lapsed(claims[k], now);
      rowcount := |gone|;
      RowsWithout(claims, gone);
      PurgedClaims(Contents(), gone, now);
      PurgeExpiredKeepsFrom(Contents(), now);
      claims := claims - gone;
    }

    method PurgeRuns(olderThan: int, clock: Time, now: Time) returns (rowcount: nat)
      modifies this
      ensures Contents() == PurgeOldRuns(old(Contents()), olderThan, clock, now)
      ensures |runs| + rowcount == |old(runs)| && Forgets(old(Contents()), Contents(), olderThan, clock, now)
      ensures KeptFrom(old(Contents()), Contents(), {}, now)
    {
      ForgetsSpec(Contents(), olderThan, clock, now);
      hide Forgets, OutdatedRuns, KeptFrom, PurgeOldRuns;
      PurgeOldRunsKeepsFrom(Contents(), olderThan, clock, now);
      PurgedRuns(Contents(), olderThan, clock, now);
      if olderThan <= 0 {
        return 0;
      }
      var cutoff := clock - olderThan;
      var t := Contents();
      var gone := OutdatedRuns(t, cutoff, now);
      rowcount := |gone|;
      RowsWithout(runs, gone);
      runs := runs - gone;
    }
  }
}
