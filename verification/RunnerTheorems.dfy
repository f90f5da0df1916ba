/** What holds of the runner in every reachable state and over every schedule. */
module RunnerTheorems {
  import opened Prelude
  import opened RunnerModel
  import opened RunnerState
  import opened WorkerPool
  import opened Runner
  import opened RunnerCustody
  import opened RunnerTokens
  import opened RunnerLedger
  import Quota

  ghost predicate Inv(c: Config, s: System) {
    && BooksOk(s)
    && CustodyOk(s.threads, s.floor) && DeletionOk(s.threads, s.floor) && AliasesOk(s.threads, s.active, s.floor)
    && TokensOk(s.threads, s.floor, c.limits)
  }

  ghost predicate Reachable(c: Config, s: System) {
    exists steps :: Exec(c, INITIAL, steps) == Some(s)
  }

  lemma InitiallyInv(c: Config)
    ensures Inv(c, INITIAL)
  {
    EmptyCustody();
    EmptyDeletion();
    EmptyAliases();
    EmptyTokens(c.limits);
  }

  lemma StepInv(c: Config, s: System, step: Step)
    requires Inv(c, s) && Apply(c, s, step).Some?
    ensures Inv(c, Apply(c, s, step).value)
  {
    hide BooksOk, CustodyOk, DeletionOk, AliasesOk, TokensOk, Apply;
    BooksKept(c, s, step);
    CustodyKept(c, s, step);
    DeletionKept(c, s, step);
    AliasesKept(c, s, step);
    TokensKept(c, s, step);
  }

  /** Every schedule keeps the invariant, whatever it interleaves. */
  lemma {:induction false} RunInv(c: Config, s: System, steps: seq<Step>)
    requires Inv(c, s) && Exec(c, s, steps).Some?
    ensures Inv(c, Exec(c, s, steps).value)
    decreases |steps|
  {
    hide Inv, Apply;
    if steps != [] {
      StepInv(c, s, steps[0]);
      RunInv(c, Apply(c, s, steps[0]).value, steps[1..]);
    }
  }

  lemma ReachableInv(c: Config, s: System)
    requires Reachable(c, s)
    ensures Inv(c, s)
  {
    hide Inv;
    var steps :| Exec(c, INITIAL, steps) == Some(s);
    InitiallyInv(c);
    RunInv(c, INITIAL, steps);
  }

  // ---------------------------------------------------------------- one answer per key

  /** Time passes, starts and commits are never taken back. */
  ghost predicate Later(s: System, s': System) {
    && s.now <= s'.now
    && (forall r :: r in s.ledger.started ==> r in s'.ledger.started && s'.ledger.started[r] == s.ledger.started[r])
    && (forall r :: r in s.ledger.commits ==> r in s'.ledger.commits && s'.ledger.commits[r] == s.ledger.commits[r])
  }

  lemma DatabaseLater(c: Config, s: System, step: Step)
    requires BooksOk(s) && DatabaseStep(step) && Apply(c, s, step).Some?
    ensures Later(s, Apply(c, s, step).value)
  {
    hide LedgerOk, Begin, Finish, Abandon, PurgeExpired, ResetRunning, PurgeOldRuns;
    if step.FinishRun? { assert ThreadOk(step.t, s.threads[step.t], s.ledger); }
    hide ThreadsOk;
  }

  lemma StepLater(c: Config, s: System, step: Step)
    requires BooksOk(s) && Apply(c, s, step).Some?
    ensures Later(s, Apply(c, s, step).value)
  {
    hide BooksOk, Offline, Apply, Later;
    if DatabaseStep(step) {
      DatabaseLater(c, s, step);
    } else {
      OfflineMoves(c, s, step);
      OfflineLater(s, Apply(c, s, step).value, step.t);
    }
  }

  lemma OfflineLater(s: System, s': System, t: ThreadId)
    requires Offline(s, s', t)
    ensures Later(s, s')
  {
  }

  lemma {:induction false} RunLater(c: Config, s: System, steps: seq<Step>)
    requires Inv(c, s) && Exec(c, s, steps).Some?
    ensures Later(s, Exec(c, s, steps).value)
    decreases |steps|
  {
    hide Apply, BooksOk;
    if steps != [] {
      StepLater(c, s, steps[0]);
      StepInv(c, s, steps[0]);
      hide Inv;
      RunLater(c, Apply(c, s, steps[0]).value, steps[1..]);
    }
  }

  /**
   * Result agreement. Once a final result is committed, then after any further schedule
   * (invokes, cancels, purges, resets, crashes and restarts) and until it expires, every
   * begin_run for the key replays that result or refuses different content; nothing is run.
   */
  lemma ResultAgreement(c: Config, s: System, steps: seq<Step>, r: RunId, t: ThreadId, clock: Time, run: RunId)
    requires Inv(c, s) && Exec(c, s, steps).Some?
    requires r in s.ledger.commits && !s.ledger.commits[r].result.retryable
    requires var s' := Exec(c, s, steps).value;
      && s'.now < s.ledger.commits[r].expires
      && BeginStep(s', t, clock, run).Some? && s'.threads[t].req.key == s.ledger.commits[r].key
    ensures var s' := Exec(c, s, steps).value;
      var s'' := BeginStep(s', t, clock, run).value;
      && s''.ledger.started == s'.ledger.started && s''.ledger.tables.runs == s'.ledger.tables.runs
      && s''.threads[t].pc ==
           if s'.threads[t].req.fingerprint == s.ledger.commits[r].fingerprint
           then Finished(Replayed(r, s.ledger.commits[r].result)) else Finished(Rejected)
  {
    hide CustodyOk, DeletionOk, AliasesOk, TokensOk, Apply;
    RunLater(c, s, steps);
    RunInv(c, s, steps);
    CachedAnswers(Exec(c, s, steps).value, r, t, clock, run);
  }

  lemma CachedAnswers(s: System, r: RunId, t: ThreadId, clock: Time, run: RunId)
    requires BooksOk(s) && BeginStep(s, t, clock, run).Some?
    requires r in s.ledger.commits && !s.ledger.commits[r].result.retryable && s.now < s.ledger.commits[r].expires
    requires s.threads[t].req.key == s.ledger.commits[r].key
    ensures var s' := BeginStep(s, t, clock, run).value;
      && s'.ledger.started == s.ledger.started && s'.ledger.tables.runs == s.ledger.tables.runs
      && s'.threads[t].pc ==
           if s.threads[t].req.fingerprint == s.ledger.commits[r].fingerprint
           then Finished(Replayed(r, s.ledger.commits[r].result)) else Finished(Rejected)
  {
    hide Coherent, Ordered, Windows, ThreadsOk;
  }

  /** Two final results of one key never share a validity window: the later run started after the earlier expired. */
  lemma OneAnswerPerWindow(c: Config, s: System, r: RunId, q: RunId)
    requires Reachable(c, s) && r != q
    requires r in s.ledger.commits && q in s.ledger.commits && s.ledger.commits[r].key == s.ledger.commits[q].key
    requires !s.ledger.commits[r].result.retryable && !s.ledger.commits[q].result.retryable
    ensures r in s.ledger.started && q in s.ledger.started
    ensures s.ledger.started[r].at >= s.ledger.commits[q].expires
      || s.ledger.started[q].at >= s.ledger.commits[r].expires
  {
    ReachableInv(c, s);
    hide Coherent, CustodyOk, DeletionOk, AliasesOk, TokensOk, ThreadsOk, Exec;
  }

  /**
   * Whatever an invoke returns was committed for its own key and fingerprint: a fresh
   * result by its own run, a replayed one by the run that the cache row names.
   */
  lemma AnswersAreCommitted(c: Config, s: System, t: ThreadId)
    requires Reachable(c, s) && Invoking(s, t) && s.threads[t].pc.Finished?
    ensures var (req, outcome) := (s.threads[t].req, s.threads[t].pc.outcome);
      && (outcome.Returned? ==>
            && outcome.run in s.ledger.started && s.ledger.started[outcome.run].owner == t
            && CommittedFor(s.ledger, outcome.run, req, outcome.result))
      && (outcome.Replayed? ==>
            CommittedFor(s.ledger, outcome.run, req, outcome.result) && !outcome.result.retryable)
  {
    hide Reachable, LedgerOk, CustodyOk, DeletionOk, AliasesOk, TokensOk;
    ReachableInv(c, s);
    assert ThreadOk(t, s.threads[t], s.ledger);
  }

  // ---------------------------------------------------------------- runs and claims

  /** At most one execution per key, and it is the one the claim names. */
  lemma OneRunningPerKey(c: Config, s: System, r: RunId, q: RunId)
    requires Reachable(c, s) && IsRunning(s.ledger.tables, r) && IsRunning(s.ledger.tables, q)
    requires s.ledger.tables.runs[r].key == s.ledger.tables.runs[q].key
    ensures r == q && HoldsClaim(s.ledger.tables, s.ledger.tables.runs[r].key, r)
  {
    ReachableInv(c, s);
    hide CustodyOk, DeletionOk, AliasesOk, TokensOk, ThreadsOk, Exec;
    assert HoldsClaim(s.ledger.tables, s.ledger.tables.runs[r].key, r);
    assert HoldsClaim(s.ledger.tables, s.ledger.tables.runs[q].key, q);
  }

  /** Purging is safe: a claim that is running or unexpired still has its run in the history. */
  lemma ClaimsKeepTheirRuns(c: Config, s: System, k: Key)
    requires Reachable(c, s) && k in s.ledger.tables.claims
    requires s.ledger.tables.claims[k].state.Claimed?
      || (s.ledger.tables.claims[k].expires.Some? && s.ledger.tables.claims[k].expires.value > s.now)
    ensures var (row, runs) := (s.ledger.tables.claims[k], s.ledger.tables.runs);
      && row.run in runs && runs[row.run].key == k && runs[row.run].fingerprint == row.fingerprint
      && runs[row.run].state == if row.state.Claimed? then Running else Done
  {
    ReachableInv(c, s);
    hide CustodyOk, DeletionOk, AliasesOk, TokensOk, ThreadsOk, Exec;
    if s.ledger.tables.claims[k].state.Claimed? { assert IsRunning(s.ledger.tables, s.ledger.tables.claims[k].run); }
  }

  /** finish_run can lose its run to a reset, but never its claim alone. */
  lemma ClaimNeverLostAlone(c: Config, s: System, t: ThreadId, stamp: Time)
    requires Reachable(c, s) && Invoking(s, t) && s.threads[t].pc.Computed?
    ensures var (req, pc) := (s.threads[t].req, s.threads[t].pc);
      && Finish(s.ledger.tables, pc.run, req.key, pc.result, stamp, c.retention, s.now).0 != IdempotencyStateLost
  {
    ReachableInv(c, s);
    hide CustodyOk, DeletionOk, AliasesOk, TokensOk, Exec;
    assert ThreadOk(t, s.threads[t], s.ledger);
    FinishKeeps(s.ledger.tables, s.threads[t].pc.run, s.threads[t].req.key, s.threads[t].pc.result, stamp, c.retention,
                s.now);
  }

  ghost predicate Terminal(s: System, r: RunId) {
    r in s.ledger.started && !IsRunning(s.ledger.tables, r)
  }

  lemma StepKeepsTerminal(c: Config, s: System, step: Step, r: RunId)
    requires BooksOk(s) && Apply(c, s, step).Some? && Terminal(s, r)
    ensures var s' := Apply(c, s, step).value;
      Terminal(s', r) && (r in s'.ledger.tables.runs ==>
        r in s.ledger.tables.runs && s'.ledger.tables.runs[r] == s.ledger.tables.runs[r])
  {
    var s' := Apply(c, s, step).value;
    StepLater(c, s, step);
    if DatabaseStep(step) {
      DatabaseHistory(c, s, step);
      hide BooksOk, Apply;
    } else {
      hide BooksOk, Apply;
      OfflineMoves(c, s, step);
    }
  }

  lemma DatabaseHistory(c: Config, s: System, step: Step)
    requires BooksOk(s) && DatabaseStep(step) && Apply(c, s, step).Some?
    ensures var (t, t') := (s.ledger.tables, Apply(c, s, step).value.ledger.tables);
      forall r :: r in s.ledger.started && !IsRunning(t, r) && r in t'.runs ==> r in t.runs && t'.runs[r] == t.runs[r]
  {
    hide LedgerOk, ThreadsOk, BeginStep, FinishStep, AbandonStep, HistoryKept, IsRunning;
    BooksCohere(s);
    if step.BeginRun? { BeginHistory(s, step.t, step.clock, step.run); }
    else if step.FinishRun? { FinishHistory(c, s, step.t, step.stamp); }
    else if step.AbandonRun? { AbandonHistory(s, step.t); }
    else { JanitorHistory(c, s, step); }
    var issued := if step.BeginRun? then {step.run} else {};
    TerminalRows(s.ledger.tables, Apply(c, s, step).value.ledger.tables, issued, s.ledger.started.Keys);
  }

  lemma BooksCohere(s: System)
    requires BooksOk(s)
    ensures Coherent(s.ledger.tables, s.now)
  {
    hide Coherent, CommitsOk, Cached, Ordered, Windows, ThreadsOk;
  }

  lemma TerminalRows(t: Tables, t': Tables, issued: set<RunId>, known: set<RunId>)
    requires HistoryKept(t, t', issued) && issued !! known
    ensures forall r :: r in known && !IsRunning(t, r) && r in t'.runs ==> r in t.runs && t'.runs[r] == t.runs[r]
  {
  }

  lemma BeginHistory(s: System, t: ThreadId, clock: Time, run: RunId)
    requires BooksOk(s) && BeginStep(s, t, clock, run).Some?
    ensures HistoryKept(s.ledger.tables, BeginStep(s, t, clock, run).value.ledger.tables, {run})
    ensures {run} !! s.ledger.started.Keys
  {
    hide Coherent, CommitsOk, Cached, Ordered, Windows, ThreadsOk, HistoryKept, Begin;
    BeginKeeps(s.ledger.tables, s.threads[t].req.key, s.threads[t].req.fingerprint, clock, s.now, run);
    SameHistory(s.ledger.tables, {run});
  }

  lemma SameHistory(t: Tables, issued: set<RunId>)
    ensures HistoryKept(t, t, issued)
  {
  }

  lemma FinishHistory(c: Config, s: System, t: ThreadId, stamp: Time)
    requires BooksOk(s) && FinishStep(c, s, t, stamp).Some?
    ensures HistoryKept(s.ledger.tables, FinishStep(c, s, t, stamp).value.ledger.tables, {})
  {
    hide Coherent, CommitsOk, Cached, Ordered, Windows, HistoryKept, Finish;
    var (req, pc) := (s.threads[t].req, s.threads[t].pc);
    assert ThreadOk(t, s.threads[t], s.ledger);
    hide ThreadsOk;
    FinishKeeps(s.ledger.tables, pc.run, req.key, pc.result, stamp, c.retention, s.now);
    SameHistory(s.ledger.tables, {});
  }

  lemma AbandonHistory(s: System, t: ThreadId)
    requires BooksOk(s) && AbandonStep(s, t).Some?
    ensures HistoryKept(s.ledger.tables, AbandonStep(s, t).value.ledger.tables, {})
  {
    hide Coherent, CommitsOk, Cached, Ordered, Windows, HistoryKept, Abandon;
    assert ThreadOk(t, s.threads[t], s.ledger);
    hide ThreadsOk;
    AbandonKeeps(s.ledger.tables, s.threads[t].pc.run, s.threads[t].req.key, s.now);
  }

  lemma JanitorHistory(c: Config, s: System, step: Step)
    requires Coherent(s.ledger.tables, s.now) && DatabaseStep(step) && !step.BeginRun? && !step.FinishRun?
    requires !step.AbandonRun?
    requires Apply(c, s, step).Some?
    ensures HistoryKept(s.ledger.tables, Apply(c, s, step).value.ledger.tables, {})
  {
    hide Coherent, HistoryKept, ResetRunning, PurgeExpired, PurgeOldRuns;
    var t := s.ledger.tables;
    SameHistory(t, {});
    if step.Reset? || step.Restart? { ResetKeeps(t, s.now); }
    if step.Purge? { PurgeExpiredKeeps(t, s.now); }
    if step.PurgeHistory? { PurgeOldRunsKeeps(t, step.olderThan, step.clock, s.now); }
    if step.Restart? { PurgedHistory(t, ResetRunning(t, s.now), s.now); }
  }

  lemma PurgedHistory(t: Tables, reset: Tables, now: Time)
    requires HistoryKept(t, reset, {})
    ensures HistoryKept(t, PurgeExpired(reset, now), {})
  {
  }

  /** DONE and ABANDONED are absorbing: over any schedule the row stays as it is, or is purged for good. */
  lemma {:induction false} TerminalForever(c: Config, s: System, steps: seq<Step>, r: RunId)
    requires Inv(c, s) && Exec(c, s, steps).Some? && Terminal(s, r)
    ensures var s' := Exec(c, s, steps).value;
      Terminal(s', r) && (r in s'.ledger.tables.runs ==>
        r in s.ledger.tables.runs && s'.ledger.tables.runs[r] == s.ledger.tables.runs[r])
    decreases |steps|
  {
    hide Apply, BooksOk;
    if steps != [] {
      StepKeepsTerminal(c, s, steps[0], r);
      StepInv(c, s, steps[0]);
      hide Inv;
      TerminalForever(c, Apply(c, s, steps[0]).value, steps[1..], r);
    }
  }

  // ---------------------------------------------------------------- workers and tokens

  /** No worker is held twice or held while idle, and a holder's worker is of its tenant, runtime and profile. */
  lemma WorkersAreExclusive(c: Config, s: System, t: ThreadId, u: ThreadId, w: WorkerId)
    requires Reachable(c, s) && t in s.threads && u in s.threads
    requires w in Held(s.threads[t].pc) && w in Held(s.threads[u].pc)
    ensures t == u && NoDuplicates(Held(s.threads[t].pc))
    ensures w in s.floor.workers && !IsIdle(s.floor.idle, s.floor.workers, w)
    ensures s.threads[t].Invoke? ==> s.floor.workers[w].home == Home(s.threads[t].req)
  {
    ReachableInv(c, s);
    hide BooksOk, DeletionOk, AliasesOk, TokensOk, Exec, Held;
    assert Custodian(t, s.threads[t], s.floor) && Custodian(u, s.threads[u], s.floor);
  }

  /** A cancel only ever retires a worker of the tenant that asked for it. */
  lemma CancelStaysInTenant(c: Config, s: System, t: ThreadId)
    requires Reachable(c, s) && t in s.threads && Cancelling(s.threads[t].pc).Some?
    ensures var (w, tenant) := Cancelling(s.threads[t].pc).value;
      w in s.floor.workers && s.floor.workers[w].home.tenant == tenant
  {
    ReachableInv(c, s);
    hide BooksOk, CustodyOk, DeletionOk, TokensOk, Exec;
  }

  /** Backend deletion and token return happen at most once per worker, and only for a destroyed one. */
  lemma RetiredOnce(c: Config, s: System, t: ThreadId, raised: bool)
    requires Reachable(c, s) && ReturnTokenStep(s, t, raised).Some?
    ensures s.threads[t].pc.w !in s.floor.retired && s.floor.workers[s.threads[t].pc.w].destroyed
    ensures NoDuplicates(ReturnTokenStep(s, t, raised).value.floor.retired)
    ensures Quota.Of(s.floor.quota, s.floor.workers[s.threads[t].pc.w].home.tenant) > 0
  {
    ReachableInv(c, s);
    hide BooksOk, CustodyOk, AliasesOk, Exec, AfterRetiring;
    ReturnTokenTokens(s, t, raised, c.limits);
    hide TokensOk;
    ReturnTokenDeletion(s, t, raised);
  }

  function Alive(floor: Floor, tenant: TenantId): set<WorkerId> {
    set w | w in floor.workers && !floor.workers[w].destroyed && floor.workers[w].home.tenant == tenant
  }

  function OwedFor(floor: Floor, tenant: TenantId): set<WorkerId> {
    set w | w in floor.workers && floor.workers[w].destroyed && w !in floor.retired
      && floor.workers[w].home.tenant == tenant
  }

  function Deleters(s: System, tenant: TenantId): set<ThreadId> {
    set t | t in s.threads && s.threads[t].pc.Deleting? && s.threads[t].pc.w in s.floor.workers
      && s.floor.workers[s.threads[t].pc.w].home.tenant == tenant
  }

  lemma {:induction false} SameSize<A, B>(a: set<A>, b: set<B>, f: map<A, B>)
    requires f.Keys == a && f.Values == b
    requires forall x, y :: x in a && y in a && f[x] == f[y] ==> x == y
    ensures |a| == |b|
    decreases |a|
  {
    if a != {} {
      var x :| x in a;
      assert f[x] in b;
      var g := f - {x};
      assert g.Keys == a - {x};
      assert g.Values == b - {f[x]} by {
        forall y | y in b - {f[x]} ensures y in g.Values {
          var z :| z in f && f[z] == y;
          assert z in g && g[z] == y;
        }
      }
      SameSize(a - {x}, b - {f[x]}, g);
    } else {
      assert f == map[];
    }
  }

  lemma OwedByDeleters(s: System, tenant: TenantId)
    requires DeletionOk(s.threads, s.floor)
    ensures |OwedFor(s.floor, tenant)| == |Deleters(s, tenant)|
  {
    var f := map w | w in OwedFor(s.floor, tenant) :: s.floor.deleter[w];
    assert f.Values == Deleters(s, tenant) by {
      forall t | t in Deleters(s, tenant) ensures t in f.Values {
        var w := s.threads[t].pc.w;
        assert w in f && f[w] == t;
      }
    }
    SameSize(OwedFor(s.floor, tenant), Deleters(s, tenant), f);
  }

  /**
   * Token conservation per tenant: the counter equals live workers, plus creations in
   * flight, plus deletions that have not yet returned their token; limits always hold.
   */
  lemma TokensConserved(c: Config, s: System, tenant: TenantId)
    requires Reachable(c, s)
    ensures Quota.Of(s.floor.quota, tenant)
      == |Alive(s.floor, tenant)| + |CreatorsFor(s.threads, tenant)| + |Deleters(s, tenant)|
    ensures Quota.Of(s.floor.quota, tenant) <= c.limits.maxLivePerTenant && s.floor.quota.live <= c.limits.maxLive
  {
    hide Reachable, BooksOk, CustodyOk, AliasesOk, DeletionOk, ChargedTo, CreatorsFor, Charged, Creators;
    ReachableInv(c, s);
    OwedByDeleters(s, tenant);
    ChargedForTenant(s.threads, s.floor, tenant);
  }

  lemma ChargedForTenant(threads: map<ThreadId, Thread>, floor: Floor, tenant: TenantId)
    requires DeletionOk(threads, floor)
    ensures |ChargedTo(floor, tenant)| == |Alive(floor, tenant)| + |OwedFor(floor, tenant)|
  {
    assert forall w :: w in floor.retired ==> floor.workers[w].destroyed;
    assert ChargedTo(floor, tenant) == Alive(floor, tenant) + OwedFor(floor, tenant);
    assert Alive(floor, tenant) !! OwedFor(floor, tenant);
  }

  function AliveAnywhere(floor: Floor): set<WorkerId> {
    set w | w in floor.workers && !floor.workers[w].destroyed
  }

  function OwedAnywhere(floor: Floor): set<WorkerId> {
    set w | w in floor.workers && floor.workers[w].destroyed && w !in floor.retired
  }

  function AllDeleters(threads: map<ThreadId, Thread>): set<ThreadId> {
    set t | t in threads && threads[t].pc.Deleting?
  }

  lemma AllOwedByDeleters(s: System)
    requires DeletionOk(s.threads, s.floor)
    ensures |OwedAnywhere(s.floor)| == |AllDeleters(s.threads)|
  {
    var f := map w | w in OwedAnywhere(s.floor) :: s.floor.deleter[w];
    assert f.Values == AllDeleters(s.threads) by {
      forall t | t in AllDeleters(s.threads) ensures t in f.Values {
        var w := s.threads[t].pc.w;
        assert w in f && f[w] == t;
      }
    }
    SameSize(OwedAnywhere(s.floor), AllDeleters(s.threads), f);
  }

  /** Token conservation over all tenants. */
  lemma TokensConservedGlobally(c: Config, s: System)
    requires Reachable(c, s)
    ensures s.floor.quota.live == |AliveAnywhere(s.floor)| + |Creators(s.threads)| + |AllDeleters(s.threads)|
    ensures s.floor.quota.live <= c.limits.maxLive
  {
    hide Reachable, BooksOk, CustodyOk, AliasesOk, DeletionOk, Charged, ChargedTo, Creators, CreatorsFor;
    ReachableInv(c, s);
    ChargedAnywhere(s.threads, s.floor);
    AllOwedByDeleters(s);
  }

  lemma ChargedAnywhere(threads: map<ThreadId, Thread>, floor: Floor)
    requires DeletionOk(threads, floor)
    ensures |Charged(floor)| == |AliveAnywhere(floor)| + |OwedAnywhere(floor)|
  {
    assert forall w :: w in floor.retired ==> floor.workers[w].destroyed;
    assert Charged(floor) == AliveAnywhere(floor) + OwedAnywhere(floor);
    assert AliveAnywhere(floor) !! OwedAnywhere(floor);
  }

  // ---------------------------------------------------------------- nothing is left behind

  /** A finished invoke holds nothing; its run is over unless abandoning it failed. */
  lemma FinishedRunIsOver(c: Config, s: System, t: ThreadId)
    requires Reachable(c, s) && Invoking(s, t) && s.threads[t].pc.Finished?
    requires s.threads[t].pc.outcome.Returned? || s.threads[t].pc.outcome.Raised?
    ensures Held(s.threads[t].pc) == []
    ensures var run := s.threads[t].pc.outcome.run;
      && run in s.ledger.started && s.ledger.started[run].owner == t
      && (run in s.ledger.orphans || !IsRunning(s.ledger.tables, run))
  {
    hide Reachable, LedgerOk, CustodyOk, DeletionOk, AliasesOk, TokensOk;
    ReachableInv(c, s);
    FinishedThread(s.threads, s.ledger, t);
  }

  lemma FinishedThread(threads: map<ThreadId, Thread>, ledger: Ledger, t: ThreadId)
    requires ThreadsOk(threads, ledger) && t in threads && threads[t].Invoke? && threads[t].pc.Finished?
    requires threads[t].pc.outcome.Returned? || threads[t].pc.outcome.Raised?
    ensures var run := threads[t].pc.outcome.run;
      && run in ledger.started && ledger.started[run].owner == t
      && (run in ledger.orphans || !IsRunning(ledger.tables, run))
  {
    assert ThreadOk(t, threads[t], ledger);
    var run := threads[t].pc.outcome.run;
    if IsRunning(ledger.tables, run) { assert Attended(run, threads, ledger); }
  }

  /**
   * When every thread is through: running rows are those whose abandon_run failed, every
   * worker is idle, destroyed with its token returned, or dropped by a loop that raised,
   * and the quota counts exactly the workers that are not destroyed.
   */
  lemma QuietRunnerIsClean(c: Config, s: System)
    requires Reachable(c, s) && forall t :: t in s.threads ==> s.threads[t].pc.Finished?
    ensures forall r :: IsRunning(s.ledger.tables, r) ==> r in s.ledger.orphans
    ensures forall w :: w in s.floor.workers ==>
      if s.floor.workers[w].destroyed then w in s.floor.retired
      else IsIdle(s.floor.idle, s.floor.workers, w) || w in s.floor.lost
    ensures s.floor.quota.live == |set w | w in s.floor.workers && !s.floor.workers[w].destroyed|
  {
    hide Reachable, CustodyOk, DeletionOk, AliasesOk, TokensOk, Inv;
    ReachableInv(c, s);
    QuietBooks(c, s);
    QuietWorkers(c, s);
  }

  lemma QuietBooks(c: Config, s: System)
    requires Inv(c, s) && forall t :: t in s.threads ==> s.threads[t].pc.Finished?
    ensures forall r :: IsRunning(s.ledger.tables, r) ==> r in s.ledger.orphans
  {
    hide CustodyOk, DeletionOk, AliasesOk, TokensOk, Coherent, CommitsOk, Cached, Ordered, Windows;
    forall r | IsRunning(s.ledger.tables, r) ensures r in s.ledger.orphans {
      assert Attended(r, s.threads, s.ledger);
    }
  }

  lemma QuietPlaces(threads: map<ThreadId, Thread>, floor: Floor)
    requires CustodyOk(threads, floor) && DeletionOk(threads, floor) && forall t ::
      t in threads ==> threads[t].pc.Finished?
    ensures forall w :: w in floor.workers ==>
      if floor.workers[w].destroyed then w in floor.retired
      else IsIdle(floor.idle, floor.workers, w) || w in floor.lost
  {
    hide Filed, IsIdle;
    forall w | w in floor.workers && !floor.workers[w].destroyed
      ensures IsIdle(floor.idle, floor.workers, w) || w in floor.lost
    {
      assert Placed(w, threads, floor);
    }
  }

  lemma QuietQuota(threads: map<ThreadId, Thread>, floor: Floor, limits: Quota.Limits)
    requires DeletionOk(threads, floor) && TokensOk(threads, floor, limits) && forall t ::
      t in threads ==> threads[t].pc.Finished?
    ensures floor.quota.live == |set w | w in floor.workers && !floor.workers[w].destroyed|
  {
    assert Creators(threads) == {};
    assert Charged(floor) == set w | w in floor.workers && !floor.workers[w].destroyed;
  }

  lemma QuietWorkers(c: Config, s: System)
    requires Inv(c, s) && forall t :: t in s.threads ==> s.threads[t].pc.Finished?
    ensures forall w :: w in s.floor.workers ==>
      if s.floor.workers[w].destroyed then w in s.floor.retired
      else IsIdle(s.floor.idle, s.floor.workers, w) || w in s.floor.lost
    ensures s.floor.quota.live == |set w | w in s.floor.workers && !s.floor.workers[w].destroyed|
  {
    hide BooksOk, AliasesOk, CustodyOk, DeletionOk, TokensOk, IsIdle;
    QuietPlaces(s.threads, s.floor);
    QuietQuota(s.threads, s.floor, c.limits);
  }

  /** No store failure in abandon_run, no exception from the backend's destroy. */
  predicate Smooth(step: Step) {
    !step.AbandonRaises? && !(step.ReturnToken? && step.raised)
  }

  lemma NoOrphans(c: Config, s: System, step: Step)
    requires Smooth(step) && Apply(c, s, step).Some? && s.ledger.orphans == {}
    ensures Apply(c, s, step).value.ledger.orphans == {}
  {
    if DatabaseStep(step) {
      hide Begin, Finish, Abandon, PurgeExpired, ResetRunning, PurgeOldRuns;
    } else {
      hide Apply;
      OfflineMoves(c, s, step);
    }
  }

  lemma NothingDropped(c: Config, s: System, step: Step)
    requires Smooth(step) && Apply(c, s, step).Some? && s.floor.lost == {}
    ensures Apply(c, s, step).value.floor.lost == {}
  {
    if SilentStep(step) {
      hide Apply;
      SilentMoves(c, s, step);
    } else {
      hide Scan, Swept, SweepOf, Quota.Reserve, Quota.Release, AfterRetiring;
      if step.ReturnToken? { RetiringViews(s.threads[step.t].pc.next, false); }
    }
  }

  lemma StepLosesNothing(c: Config, s: System, step: Step)
    requires Smooth(step) && Apply(c, s, step).Some? && s.ledger.orphans == {} && s.floor.lost == {}
    ensures Apply(c, s, step).value.ledger.orphans == {} && Apply(c, s, step).value.floor.lost == {}
  {
    hide Apply, Smooth;
    NoOrphans(c, s, step);
    NothingDropped(c, s, step);
  }

  /** On a schedule without those two failures nothing is ever orphaned or dropped. */
  lemma {:induction false} SmoothRunLosesNothing(c: Config, s: System, steps: seq<Step>)
    requires Exec(c, s, steps).Some? && (forall i :: 0 <= i < |steps| ==> Smooth(steps[i]))
    requires s.ledger.orphans == {} && s.floor.lost == {}
    ensures Exec(c, s, steps).value.ledger.orphans == {} && Exec(c, s, steps).value.floor.lost == {}
    decreases |steps|
  {
    hide Apply, Smooth;
    if steps != [] {
      StepLosesNothing(c, s, steps[0]);
      SmoothRunLosesNothing(c, Apply(c, s, steps[0]).value, steps[1..]);
    }
  }
}
