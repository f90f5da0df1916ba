/**
 * When a request is answered from the store and when it is run: results are kept for the
 * retention period after the commit, and afterwards the same request runs again.
 */
module RunnerAnswers {
  import opened Prelude
  import opened RunnerModel
  import opened RunnerState
  import opened Runner
  import opened RunnerLedger
  import opened RunnerTheorems

  /** No execution of this key is running, and its claim, if there is one, is of this fingerprint. */
  predicate Unclaimed(ledger: Ledger, req: Request) {
    req.key in ledger.tables.claims ==>
      && ledger.tables.claims[req.key].state == Settled
      && ledger.tables.claims[req.key].fingerprint == req.fingerprint
  }

  /** Every final result of this key has had its time. */
  ghost predicate AllOver(ledger: Ledger, key: Key, clock: Time) {
    forall r :: r in ledger.commits && ledger.commits[r].key == key && !ledger.commits[r].result.retryable ==>
      ledger.commits[r].expires <= clock
  }

  /** The step went on to run the request, and the history has a new start for it. */
  predicate Claimed(s: System, s': System, t: ThreadId, run: RunId) {
    && Invoking(s, t) && Invoking(s', t) && s'.threads[t].pc == Begun(run)
    && run !in s.ledger.started && run in s'.ledger.started
    && s'.ledger.started[run].key == s.threads[t].req.key
    && s'.ledger.started[run].fingerprint == s.threads[t].req.fingerprint
    && IsRunning(s'.ledger.tables, run) && HoldsClaim(s'.ledger.tables, s.threads[t].req.key, run)
  }

  /** Once every final result of the key has expired, the next begin_run claims the key anew and runs. */
  lemma ExpiredRunsAgain(c: Config, s: System, t: ThreadId, clock: Time, run: RunId)
    requires Reachable(c, s) && BeginStep(s, t, clock, run).Some?
    requires Unclaimed(s.ledger, s.threads[t].req) && AllOver(s.ledger, s.threads[t].req.key, clock)
    ensures Claimed(s, BeginStep(s, t, clock, run).value, t, run)
  {
    hide Reachable, Inv, Begin, Answerable, AllOver, IsRunning, HoldsClaim;
    ReachableInv(c, s);
    StoredAnswersAreCommits(c, s);
    var req := s.threads[t].req;
    UnansweredIsFresh(s.ledger.tables, req, clock, s.now, run);
  }

  lemma UnansweredIsFresh(tables: Tables, req: Request, clock: Time, now: Time, run: RunId)
    requires req.key in tables.claims ==>
      && tables.claims[req.key].state == Settled && tables.claims[req.key].fingerprint == req.fingerprint
      && forall result :: !Answerable(tables.claims[req.key], req.fingerprint, result, clock)
    ensures var (outcome, tables') := Begin(tables, req.key, req.fingerprint, clock, now, run);
      outcome == Fresh(run) && IsRunning(tables', run) && HoldsClaim(tables', req.key, run)
  {
    hide Begin, Answerable;
    BeginsSpec(tables, req.key, req.fingerprint, clock, now, run);
    var outcome := Begin(tables, req.key, req.fingerprint, clock, now, run).0;
    assert outcome.Conflict? || outcome.InProgress? || outcome.Replay? || outcome.Fresh?;
  }

  /** A stored answer is the result of a final commit, with that commit's expiry. */
  lemma StoredAnswersAreCommits(c: Config, s: System)
    requires Inv(c, s)
    ensures forall k, fingerprint, result, clock ::
      k in s.ledger.tables.claims && Answerable(s.ledger.tables.claims[k], fingerprint, result, clock) ==>
        !AllOver(s.ledger, k, clock)
  {
    forall k, fingerprint, result, clock |
      k in s.ledger.tables.claims && Answerable(s.ledger.tables.claims[k], fingerprint, result, clock)
      ensures !AllOver(s.ledger, k, clock)
    {
      BackedByCommit(s.ledger, s.now, k);
    }
  }

  lemma BackedByCommit(ledger: Ledger, now: Time, k: Key)
    requires LedgerOk(ledger, now) && k in ledger.tables.claims && ledger.tables.claims[k].state.Settled?
    ensures var r := ledger.tables.claims[k].run;
      && r in ledger.commits && ledger.commits[r].key == k && Backs(ledger.tables.claims[k], ledger.commits[r])
  {
    hide Coheres, CommitsOk, Ordered, Windows;
  }

  /** A request is run only if nothing of its key is running and every final result of the key has expired. */
  lemma RunsOnlyIfOver(c: Config, s: System, t: ThreadId, clock: Time, run: RunId)
    requires Reachable(c, s) && BeginStep(s, t, clock, run).Some?
    requires BeginStep(s, t, clock, run).value.threads[t].pc.Begun?
    ensures Unclaimed(s.ledger, s.threads[t].req) && AllOver(s.ledger, s.threads[t].req.key, s.now)
    ensures forall r :: IsRunning(s.ledger.tables, r) ==> s.ledger.tables.runs[r].key != s.threads[t].req.key
  {
    hide Reachable;
    ReachableInv(c, s);
    BooksAre(c, s);
    hide Inv, Begin, LedgerOk;
    var req := s.threads[t].req;
    BeginsSpec(s.ledger.tables, req.key, req.fingerprint, clock, s.now, run);
    forall r | r in s.ledger.commits && s.ledger.commits[r].key == req.key && !s.ledger.commits[r].result.retryable
      ensures s.ledger.commits[r].expires <= s.now
    {
      if s.ledger.commits[r].expires > s.now { UnexpiredIsStored(s.ledger, s.now, r, req, clock); }
    }
    forall r | IsRunning(s.ledger.tables, r) ensures s.ledger.tables.runs[r].key != req.key {
      RunningHoldsClaim(s.ledger, s.now, r);
    }
  }

  lemma BooksAre(c: Config, s: System)
    requires Inv(c, s)
    ensures LedgerOk(s.ledger, s.now)
  {
    hide LedgerOk, ThreadsOk;
  }

  lemma RunningHoldsClaim(ledger: Ledger, now: Time, r: RunId)
    requires LedgerOk(ledger, now) && IsRunning(ledger.tables, r)
    ensures HoldsClaim(ledger.tables, ledger.tables.runs[r].key, r)
  {
    hide CommitsOk, Cached, Ordered, Windows;
  }

  lemma UnexpiredIsStored(ledger: Ledger, now: Time, r: RunId, req: Request, clock: Time)
    requires LedgerOk(ledger, now) && r in ledger.commits && ledger.commits[r].key == req.key && clock <= now
    requires !ledger.commits[r].result.retryable && ledger.commits[r].expires > now
    ensures req.key in ledger.tables.claims
    ensures var row := ledger.tables.claims[req.key];
      row.fingerprint == req.fingerprint ==> Answerable(row, req.fingerprint, ledger.commits[r].result, clock)
  {
    hide Coheres, CommitsOk, Ordered, Windows;
  }

  /** finish_run got through: its result is in the history, to be kept for the retention period if it is final. */
  lemma FinishCommits(c: Config, s: System, t: ThreadId, stamp: Time)
    requires FinishStep(c, s, t, stamp).Some? && FinishStep(c, s, t, stamp).value.threads[t].pc.Persisted?
    ensures var (s', req, pc) := (FinishStep(c, s, t, stamp).value, s.threads[t].req, s.threads[t].pc);
      && pc.run in s'.ledger.commits && IsRunning(s.ledger.tables, pc.run)
      && s'.ledger.commits[pc.run]
           == Commit(req.key, req.fingerprint, pc.result, stamp + if pc.result.retryable then 0 else c.retention, s.now)
      && s'.threads[t].pc == Persisted(pc.run, pc.w, pc.result)
  {
    var (req, pc) := (s.threads[t].req, s.threads[t].pc);
    FinishesSpec(s.ledger.tables, pc.run, req.key, pc.result, stamp, c.retention, s.now);
  }

  /**
   * After a finish_run that committed a final result, whatever happens in between, every
   * begin_run for its key within the retention period repeats that result or refuses other
   * content, and starts nothing.
   */
  lemma CommittedIsReplayed(c: Config, s: System, t: ThreadId, stamp: Time, steps: seq<Step>, u: ThreadId, clock: Time,
                            run: RunId)
    requires Reachable(c, s) && FinishStep(c, s, t, stamp).Some? && !s.threads[t].pc.result.retryable
    requires FinishStep(c, s, t, stamp).value.threads[t].pc.Persisted?
    requires Exec(c, FinishStep(c, s, t, stamp).value, steps).Some?
    requires var s' := Exec(c, FinishStep(c, s, t, stamp).value, steps).value;
      && s'.now < stamp + c.retention
      && BeginStep(s', u, clock, run).Some? && s'.threads[u].req.key == s.threads[t].req.key
    ensures var s' := Exec(c, FinishStep(c, s, t, stamp).value, steps).value;
      var s'' := BeginStep(s', u, clock, run).value;
      && s''.ledger.started == s'.ledger.started && s''.ledger.tables.runs == s'.ledger.tables.runs
      && s''.threads[u].pc ==
           if s'.threads[u].req.fingerprint == s.threads[t].req.fingerprint
           then Finished(Replayed(s.threads[t].pc.run, s.threads[t].pc.result)) else Finished(Rejected)
  {
    hide Reachable, FinishStep, BeginStep, Inv, Exec;
    ReachableInv(c, s);
    FinishIsAStep(c, s, t, stamp);
    StepInv(c, s, FinishRun(t, stamp));
    FinishCommits(c, s, t, stamp);
    ResultAgreement(c, FinishStep(c, s, t, stamp).value, steps, s.threads[t].pc.run, u, clock, run);
  }

  lemma FinishIsAStep(c: Config, s: System, t: ThreadId, stamp: Time)
    ensures Apply(c, s, FinishRun(t, stamp)) == FinishStep(c, s, t, stamp)
    ensures FinishStep(c, s, t, stamp).Some? ==> Invoking(s, t) && s.threads[t].pc.Computed?
  {
  }
}
