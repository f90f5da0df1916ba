/**
 * Retiring a worker happens once, a cancel stays inside its tenant, and every token of
 * the live quota is accounted for.
 */
module RunnerTokens {
  import opened Prelude
  import opened RunnerModel
  import opened WorkerPool
  import opened Runner
  import opened RunnerCustody
  import Quota

  // ---------------------------------------------------------------- plain steps

  /** Steps of threads that neither retire nor cancel anything, before or after. */
  predicate PlainStep(step: Step) {
    step.Admit? || step.Pop? || step.ReserveLive? || step.Create? || step.CreateRaises? || step.Return? || step.Reap?
  }

  predicate Unburdened(pc: Pc) {
    Owed(pc).None? && Cancelling(pc).None?
  }

  /** Workers keep home and flag, new ones are not destroyed, no token moved. */
  predicate PlainFloor(floor: Floor, floor': Floor) {
    && floor'.deleter == floor.deleter && floor'.retired == floor.retired
    && floor.workers.Keys <= floor'.workers.Keys
    && (forall w :: w in floor.workers ==>
          floor'.workers[w].home == floor.workers[w].home && floor'.workers[w].destroyed == floor.workers[w].destroyed)
    && (forall w :: w in floor'.workers && w !in floor.workers ==> !floor'.workers[w].destroyed)
  }

  ghost predicate Plain(s: System, s': System, t: ThreadId) {
    && t in s'.threads && s'.threads == s.threads[t := s'.threads[t]] && s'.active == s.active
    && (t in s.threads ==> Unburdened(s.threads[t].pc)) && Unburdened(s'.threads[t].pc)
    && PlainFloor(s.floor, s'.floor)
  }

  lemma PopMoves(c: Config, s: System, step: Step)
    requires (step.Pop? || step.Reap? || step.Return?) && Apply(c, s, step).Some?
    ensures Plain(s, Apply(c, s, step).value, step.t)
  {
    hide Scan, Store, Swept, SweepOf, Bucket, Quota.Reserve, Quota.Release;
  }

  lemma MakeMoves(c: Config, s: System, step: Step)
    requires (step.Admit? || step.ReserveLive? || step.Create? || step.CreateRaises?) && Apply(c, s, step).Some?
    ensures Plain(s, Apply(c, s, step).value, step.t)
  {
    hide Scan, Store, Swept, SweepOf, Bucket, Quota.Reserve, Quota.Release;
  }

  lemma PlainMoves(c: Config, s: System, step: Step)
    requires PlainStep(step) && Apply(c, s, step).Some?
    ensures Plain(s, Apply(c, s, step).value, step.t)
  {
    hide Apply, Plain;
    if step.Pop? || step.Reap? || step.Return? { PopMoves(c, s, step); }
    else { MakeMoves(c, s, step); }
  }

  // ---------------------------------------------------------------- retired exactly once

  lemma PlainDeletion(s: System, s': System, t: ThreadId)
    requires DeletionOk(s.threads, s.floor) && Plain(s, s', t)
    ensures DeletionOk(s'.threads, s'.floor)
  {
    hide Cancelling;
    assert forall u :: u in s.threads ==> Owed(s'.threads[u].pc) == Owed(s.threads[u].pc);
  }

  lemma MarkDestroyedDeletion(s: System, t: ThreadId)
    requires DeletionOk(s.threads, s.floor) && MarkDestroyedStep(s, t).Some?
    ensures var s' := MarkDestroyedStep(s, t).value; DeletionOk(s'.threads, s'.floor)
  {
    hide AfterRetiring, Held, Dropped;
    RetiringViews(s.threads[t].pc.next, false);
  }

  lemma ReturnTokenDeletion(s: System, t: ThreadId, raised: bool)
    requires DeletionOk(s.threads, s.floor) && ReturnTokenStep(s, t, raised).Some?
    ensures var s' := ReturnTokenStep(s, t, raised).value; DeletionOk(s'.threads, s'.floor)
  {
    hide AfterRetiring, Held, Dropped, Quota.Release;
    RetiringViews(s.threads[t].pc.next, raised);
    ConcatNoDuplicates(s.floor.retired, [s.threads[t].pc.w]);
  }

  lemma CancelDeletion(s: System, t: ThreadId, tenant: TenantId, lease: LeaseId, invocation: InvocationId)
    requires DeletionOk(s.threads, s.floor) && CancelStep(s, t, tenant, lease, invocation).Some?
    ensures var s' := CancelStep(s, t, tenant, lease, invocation).value; DeletionOk(s'.threads, s'.floor)
  {
  }

  lemma DeletionKept(c: Config, s: System, step: Step)
    requires DeletionOk(s.threads, s.floor) && Apply(c, s, step).Some?
    ensures var s' := Apply(c, s, step).value; DeletionOk(s'.threads, s'.floor)
  {
    hide DeletionOk, Silent, Plain, MarkDestroyedStep, ReturnTokenStep, CancelStep;
    if step.MarkDestroyed? { MarkDestroyedDeletion(s, step.t); }
    else if step.ReturnToken? { ReturnTokenDeletion(s, step.t, step.raised); }
    else if step.Cancel? { CancelDeletion(s, step.t, step.tenant, step.lease, step.invocation); }
    else if step.Restart? { EmptyDeletion(); }
    else if SilentStep(step) {
      SilentMoves(c, s, step);
      SilentDeletion(s, Apply(c, s, step).value, step.t);
    } else if PlainStep(step) {
      PlainMoves(c, s, step);
      PlainDeletion(s, Apply(c, s, step).value, step.t);
    } else {
      MaintenanceAside(c, s, step);
    }
  }

  lemma EmptyDeletion()
    ensures DeletionOk(map[], EMPTY_FLOOR)
  {
  }

  // ---------------------------------------------------------------- cancel stays in its tenant

  lemma PlainAliases(s: System, s': System, t: ThreadId)
    requires AliasesOk(s.threads, s.active, s.floor) && Plain(s, s', t)
    ensures AliasesOk(s'.threads, s'.active, s'.floor)
  {
    hide Owed;
    assert forall u :: u in s.threads ==> Cancelling(s'.threads[u].pc) == Cancelling(s.threads[u].pc);
  }

  lemma CancelAliases(s: System, t: ThreadId, tenant: TenantId, lease: LeaseId, invocation: InvocationId)
    requires AliasesOk(s.threads, s.active, s.floor) && CancelStep(s, t, tenant, lease, invocation).Some?
    ensures var s' := CancelStep(s, t, tenant, lease, invocation).value; AliasesOk(s'.threads, s'.active, s'.floor)
  {
    hide Held;
  }

  /** One thread moves on without taking up a cancel; homes stay as they are. */
  ghost predicate NoNewCancel(s: System, s': System, t: ThreadId) {
    && t in s.threads && t in s'.threads && s'.threads == s.threads[t := s'.threads[t]] && s'.active == s.active
    && (Cancelling(s'.threads[t].pc).Some? ==> Cancelling(s'.threads[t].pc) == Cancelling(s.threads[t].pc))
    && s'.floor.workers.Keys == s.floor.workers.Keys
    && forall w :: w in s.floor.workers ==> s'.floor.workers[w].home == s.floor.workers[w].home
  }

  lemma NoNewCancelAliases(s: System, s': System, t: ThreadId)
    requires AliasesOk(s.threads, s.active, s.floor) && NoNewCancel(s, s', t)
    ensures AliasesOk(s'.threads, s'.active, s'.floor)
  {
    hide Cancelling;
  }

  lemma DoomMoves(c: Config, s: System, step: Step)
    requires step.MarkDestroyed? || step.ReturnToken?
    requires Apply(c, s, step).Some?
    ensures NoNewCancel(s, Apply(c, s, step).value, step.t)
  {
    hide AfterRetiring, Held, Dropped, Quota.Release;
    RetiringViews(s.threads[step.t].pc.next, step.ReturnToken? && step.raised);
  }

  lemma DoomAliases(c: Config, s: System, step: Step)
    requires step.MarkDestroyed? || step.ReturnToken?
    requires AliasesOk(s.threads, s.active, s.floor) && Apply(c, s, step).Some?
    ensures var s' := Apply(c, s, step).value; AliasesOk(s'.threads, s'.active, s'.floor)
  {
    hide AliasesOk, NoNewCancel, Apply;
    DoomMoves(c, s, step);
    NoNewCancelAliases(s, Apply(c, s, step).value, step.t);
  }

  lemma RetireAliases(c: Config, s: System, step: Step)
    requires step.MarkDestroyed? || step.ReturnToken? || step.Cancel?
    requires AliasesOk(s.threads, s.active, s.floor) && Apply(c, s, step).Some?
    ensures var s' := Apply(c, s, step).value; AliasesOk(s'.threads, s'.active, s'.floor)
  {
    hide AliasesOk, CancelStep, MarkDestroyedStep, ReturnTokenStep;
    if step.Cancel? {
      CancelAliases(s, step.t, step.tenant, step.lease, step.invocation);
      } else { DoomAliases(c, s, step);
    }
  }

  lemma AliasesKept(c: Config, s: System, step: Step)
    requires CustodyOk(s.threads, s.floor) && AliasesOk(s.threads, s.active, s.floor) && Apply(c, s, step).Some?
    ensures var s' := Apply(c, s, step).value; AliasesOk(s'.threads, s'.active, s'.floor)
  {
    hide CustodyOk, AliasesOk, Silent, Plain;
    if step.MarkDestroyed? || step.ReturnToken? || step.Cancel? { RetireAliases(c, s, step); }
    else if step.Restart? { EmptyAliases(); }
    else if SilentStep(step) {
      SilentMoves(c, s, step);
      SilentActive(c, s, step);
      SilentAliases(s, Apply(c, s, step).value, step.t);
    } else if PlainStep(step) {
      PlainMoves(c, s, step);
      PlainAliases(s, Apply(c, s, step).value, step.t);
    } else {
      MaintenanceAside(c, s, step);
    }
  }

  lemma EmptyAliases()
    ensures AliasesOk(map[], map[], EMPTY_FLOOR)
  {
  }

  // ---------------------------------------------------------------- tokens are conserved

  /** Workers whose token has not come back: undestroyed ones, and those some thread still owes for. */
  function Charged(floor: Floor): set<WorkerId> {
    set w | w in floor.workers && w !in floor.retired
  }

  function ChargedTo(floor: Floor, tenant: TenantId): set<WorkerId> {
    set w | w in floor.workers && w !in floor.retired && floor.workers[w].home.tenant == tenant
  }

  function Creators(threads: map<ThreadId, Thread>): set<ThreadId> {
    set t | t in threads && IsCreating(threads[t])
  }

  function CreatorsFor(threads: map<ThreadId, Thread>, tenant: TenantId): set<ThreadId> {
    set t | t in threads && IsCreating(threads[t]) && threads[t].req.key.tenant == tenant
  }

  ghost predicate Balanced(threads: map<ThreadId, Thread>, floor: Floor) {
    && floor.quota.live == |Charged(floor)| + |Creators(threads)|
    && (forall tenant :: Quota.Of(floor.quota, tenant) == |ChargedTo(floor, tenant)| + |CreatorsFor(threads, tenant)|)
  }

  ghost predicate TokensOk(threads: map<ThreadId, Thread>, floor: Floor, limits: Quota.Limits) {
    Quota.Within(floor.quota, limits) && Balanced(threads, floor)
  }

  /** Nothing that counts has changed. */
  ghost predicate SameCounts(threads: map<ThreadId, Thread>, floor: Floor, threads': map<ThreadId, Thread>,
                             floor': Floor) {
    && floor'.quota == floor.quota
    && Charged(floor') == Charged(floor) && Creators(threads') == Creators(threads)
    && (forall tenant :: ChargedTo(floor', tenant) == ChargedTo(floor, tenant))
    && (forall tenant :: CreatorsFor(threads', tenant) == CreatorsFor(threads, tenant))
  }

  function One(b: bool): nat {
    if b then 1 else 0
  }

  lemma CreatorJoins(threads: map<ThreadId, Thread>, t: ThreadId, th: Thread)
    requires t in threads && !IsCreating(threads[t]) && IsCreating(th)
    ensures |Creators(threads[t := th])| == |Creators(threads)| + 1
    ensures forall tenant ::
        |CreatorsFor(threads[t := th], tenant)| == |CreatorsFor(threads, tenant)| + One(tenant == th.req.key.tenant)
  {
    assert Creators(threads[t := th]) == Creators(threads) + {t};
    forall tenant ensures |CreatorsFor(threads[t := th], tenant)|
      == |CreatorsFor(threads, tenant)| + One(tenant == th.req.key.tenant)
    {
      assert CreatorsFor(threads[t := th], tenant)
        == if tenant == th.req.key.tenant then CreatorsFor(threads, tenant) + {t} else CreatorsFor(threads, tenant);
    }
  }

  lemma CreatorLeaves(threads: map<ThreadId, Thread>, t: ThreadId, th: Thread)
    requires t in threads && IsCreating(threads[t]) && !IsCreating(th)
    ensures |Creators(threads[t := th])| == |Creators(threads)| - 1
    ensures forall tenant ::
        |CreatorsFor(threads[t := th], tenant)|
          == |CreatorsFor(threads, tenant)| - One(tenant == threads[t].req.key.tenant)
  {
    assert Creators(threads[t := th]) == Creators(threads) - {t};
    forall tenant ensures |CreatorsFor(threads[t := th], tenant)|
      == |CreatorsFor(threads, tenant)| - One(tenant == threads[t].req.key.tenant)
    {
      assert CreatorsFor(threads[t := th], tenant) == CreatorsFor(threads, tenant) - {t};
    }
  }

  lemma ChargeAdded(floor: Floor, floor': Floor, w: WorkerId)
    requires w !in floor.workers && w !in floor.retired && w in floor'.workers && floor'.retired == floor.retired
    requires floor'.workers == floor.workers[w := floor'.workers[w]]
    ensures |Charged(floor')| == |Charged(floor)| + 1
    ensures forall tenant ::
        |ChargedTo(floor', tenant)| == |ChargedTo(floor, tenant)| + One(tenant == floor'.workers[w].home.tenant)
  {
    assert Charged(floor') == Charged(floor) + {w};
    forall tenant ensures |ChargedTo(floor', tenant)|
      == |ChargedTo(floor, tenant)| + One(tenant == floor'.workers[w].home.tenant)
    {
      hide ChargedTo;
      ChargeAddedTo(floor, floor', w, tenant);
    }
  }

  lemma ChargeAddedTo(floor: Floor, floor': Floor, w: WorkerId, tenant: TenantId)
    requires w !in floor.workers && w !in floor.retired && w in floor'.workers && floor'.retired == floor.retired
    requires floor'.workers == floor.workers[w := floor'.workers[w]]
    ensures |ChargedTo(floor', tenant)| == |ChargedTo(floor, tenant)| + One(tenant == floor'.workers[w].home.tenant)
  {
    if tenant == floor'.workers[w].home.tenant {
      assert ChargedTo(floor', tenant) == ChargedTo(floor, tenant) + {w};
    } else {
      assert ChargedTo(floor', tenant) == ChargedTo(floor, tenant);
    }
  }

  lemma ChargeDropped(floor: Floor, floor': Floor, w: WorkerId)
    requires w in floor.workers && w !in floor.retired && floor'.workers == floor.workers
    requires floor'.retired == floor.retired + [w]
    ensures |Charged(floor')| == |Charged(floor)| - 1
    ensures forall tenant ::
        |ChargedTo(floor', tenant)| == |ChargedTo(floor, tenant)| - One(tenant == floor.workers[w].home.tenant)
  {
    assert Charged(floor') == Charged(floor) - {w};
    forall tenant ensures |ChargedTo(floor', tenant)|
      == |ChargedTo(floor, tenant)| - One(tenant == floor.workers[w].home.tenant)
    {
      assert ChargedTo(floor', tenant) == ChargedTo(floor, tenant) - {w};
    }
  }

  /** A thread that neither enters nor leaves the creating state. */
  lemma CreatorsStay(threads: map<ThreadId, Thread>, t: ThreadId, th: Thread)
    requires t in threads ==>
      (IsCreating(th) <==> IsCreating(threads[t])) && (IsCreating(th) ==> th.req == threads[t].req)
    requires t !in threads ==> !IsCreating(th)
    ensures Creators(threads[t := th]) == Creators(threads)
    ensures forall tenant :: CreatorsFor(threads[t := th], tenant) == CreatorsFor(threads, tenant)
  {
  }

  lemma ChargedStays(floor: Floor, floor': Floor)
    requires floor'.retired == floor.retired && floor'.workers.Keys == floor.workers.Keys
    requires forall w :: w in floor.workers ==> floor'.workers[w].home == floor.workers[w].home
    ensures Charged(floor') == Charged(floor)
    ensures forall tenant :: ChargedTo(floor', tenant) == ChargedTo(floor, tenant)
  {
  }

  lemma SameCountsKeep(threads: map<ThreadId, Thread>, floor: Floor, threads': map<ThreadId, Thread>, floor': Floor,
                       limits: Quota.Limits)
    requires TokensOk(threads, floor, limits) && SameCounts(threads, floor, threads', floor')
    ensures TokensOk(threads', floor', limits)
  {
    hide Charged, ChargedTo, Creators, CreatorsFor;
  }

  lemma SilentCounts(s: System, s': System, t: ThreadId)
    requires Silent(s, s', t)
    ensures SameCounts(s.threads, s.floor, s'.threads, s'.floor)
  {
    hide Held, Owed, Cancelling;
    CreatorsStay(s.threads, t, s'.threads[t]);
    ChargedStays(s.floor, s'.floor);
  }

  predicate UncountedStep(step: Step) {
    step.Admit? || step.Pop? || step.Return? || step.Reap? || step.MarkDestroyed? || step.Cancel?
  }

  lemma UncountedMoves(c: Config, s: System, step: Step)
    requires UncountedStep(step) && Apply(c, s, step).Some?
    ensures SameCounts(s.threads, s.floor, Apply(c, s, step).value.threads, Apply(c, s, step).value.floor)
  {
    hide Charged, ChargedTo, Creators, CreatorsFor, AfterRetiring, Scan, Store, Swept, SweepOf, Bucket;
    var s' := Apply(c, s, step).value;
    if step.MarkDestroyed? { RetiringViews(s.threads[step.t].pc.next, false); }
    CreatorsStay(s.threads, step.t, s'.threads[step.t]);
    ChargedStays(s.floor, s'.floor);
  }

  lemma ReserveTokens(c: Config, s: System, t: ThreadId)
    requires TokensOk(s.threads, s.floor, c.limits) && ReserveStep(c, s, t).Some?
    ensures var s' := ReserveStep(c, s, t).value; TokensOk(s'.threads, s'.floor, c.limits)
  {
    hide Quota.Reserve, Quota.Within, Quota.Of;
    var s' := ReserveStep(c, s, t).value;
    Quota.ReserveKeeps(s.floor.quota, c.limits, s.threads[t].req.key.tenant);
    assert Charged(s'.floor) == Charged(s.floor) && forall tenant ::
      ChargedTo(s'.floor, tenant) == ChargedTo(s.floor, tenant);
    if s'.threads[t].pc.Creating? {
      CreatorJoins(s.threads, t, s'.threads[t]);
    } else {
      CreatorsStay(s.threads, t, s'.threads[t]);
    }
  }

  /** The reservation passes from the creating thread to the worker it created. */
  lemma CreateTokens(s: System, t: ThreadId, w: WorkerId, limits: Quota.Limits)
    requires TokensOk(s.threads, s.floor, limits) && DeletionOk(s.threads, s.floor) && CreateStep(s, t, w).Some?
    ensures var s' := CreateStep(s, t, w).value; TokensOk(s'.threads, s'.floor, limits)
  {
    hide Quota.Within, Quota.Of, Charged, ChargedTo, Creators, CreatorsFor;
    var s' := CreateStep(s, t, w).value;
    CreatorLeaves(s.threads, t, s'.threads[t]);
    ChargeAdded(s.floor, s'.floor, w);
  }

  /** The guard of release_live against an empty counter is never taken here. */
  lemma CreateRaisesTokens(s: System, t: ThreadId, limits: Quota.Limits)
    requires TokensOk(s.threads, s.floor, limits) && CreateRaisesStep(s, t).Some?
    ensures Quota.Of(s.floor.quota, s.threads[t].req.key.tenant) > 0
    ensures var s' := CreateRaisesStep(s, t).value; TokensOk(s'.threads, s'.floor, limits)
  {
    hide Quota.Release, Quota.Within, Quota.Of;
    var s' := CreateRaisesStep(s, t).value;
    var tenant := s.threads[t].req.key.tenant;
    assert t in CreatorsFor(s.threads, tenant);
    Quota.ReleaseKeeps(s.floor.quota, limits, tenant);
    CreatorLeaves(s.threads, t, s'.threads[t]);
    assert Charged(s'.floor) == Charged(s.floor) && forall tn :: ChargedTo(s'.floor, tn) == ChargedTo(s.floor, tn);
  }

  /** Nor here: the token that comes back is the retired worker's own. */
  lemma ReturnTokenTokens(s: System, t: ThreadId, raised: bool, limits: Quota.Limits)
    requires TokensOk(s.threads, s.floor, limits) && DeletionOk(s.threads, s.floor)
    requires ReturnTokenStep(s, t, raised).Some?
    ensures Quota.Of(s.floor.quota, s.floor.workers[s.threads[t].pc.w].home.tenant) > 0
    ensures var s' := ReturnTokenStep(s, t, raised).value; TokensOk(s'.threads, s'.floor, limits)
  {
    hide Quota.Release, Quota.Within, Quota.Of, AfterRetiring, Dropped, Creators, CreatorsFor, Charged;
    var s' := ReturnTokenStep(s, t, raised).value;
    var w := s.threads[t].pc.w;
    var tenant := s.floor.workers[w].home.tenant;
    assert w in ChargedTo(s.floor, tenant);
    RetiringViews(s.threads[t].pc.next, raised);
    Quota.ReleaseKeeps(s.floor.quota, limits, tenant);
    CreatorsStay(s.threads, t, s'.threads[t]);
    ChargeDropped(s.floor, s'.floor, w);
  }

  lemma TokensKept(c: Config, s: System, step: Step)
    requires TokensOk(s.threads, s.floor, c.limits) && DeletionOk(s.threads, s.floor) && Apply(c, s, step).Some?
    ensures var s' := Apply(c, s, step).value; TokensOk(s'.threads, s'.floor, c.limits)
  {
    hide TokensOk, DeletionOk, SameCounts, Silent, ReserveStep, CreateStep, CreateRaisesStep, ReturnTokenStep;
    if step.ReserveLive? { ReserveTokens(c, s, step.t); }
    else if step.Create? { CreateTokens(s, step.t, step.w, c.limits); }
    else if step.CreateRaises? { CreateRaisesTokens(s, step.t, c.limits); }
    else if step.ReturnToken? { ReturnTokenTokens(s, step.t, step.raised, c.limits); }
    else if step.Restart? { EmptyTokens(c.limits); }
    else if SilentStep(step) || UncountedStep(step) {
      var s' := Apply(c, s, step).value;
      if SilentStep(step) {
        SilentMoves(c, s, step);
        SilentCounts(s, s', step.t);
      } else {
        UncountedMoves(c, s, step);
      }
      SameCountsKeep(s.threads, s.floor, s'.threads, s'.floor, c.limits);
    } else {
      MaintenanceAside(c, s, step);
    }
  }

  lemma EmptyTokens(limits: Quota.Limits)
    ensures TokensOk(map[], EMPTY_FLOOR, limits)
  {
  }
}
