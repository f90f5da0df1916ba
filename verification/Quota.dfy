/** The live-sandbox quota: one global counter and one counter per tenant. */
module Quota {
  import opened Prelude
  import opened RunnerModel

  datatype Limits = Limits(maxLive: nat, maxLivePerTenant: nat)

  /** `perTenant` never stores a zero: the last release of a tenant drops its entry. */
  datatype Counters = Counters(live: int, perTenant: map<TenantId, int>)

  const NONE_LIVE := Counters(0, map[])

  function Of(c: Counters, tenant: TenantId): int {
    if tenant in c.perTenant then c.perTenant[tenant] else 0
  }

  datatype ReserveOutcome = Reserved | GlobalQuota | TenantQuota

  function Reserve(c: Counters, limits: Limits, tenant: TenantId): (ReserveOutcome, Counters) {
    if c.live >= limits.maxLive then (GlobalQuota, c)
    else if Of(c, tenant) >= limits.maxLivePerTenant then (TenantQuota, c)
    else (Reserved, Counters(c.live + 1, c.perTenant[tenant := Of(c, tenant) + 1]))
  }

  function Release(c: Counters, tenant: TenantId): Counters {
    if Of(c, tenant) <= 0 then c
    else if Of(c, tenant) == 1 then Counters(c.live - 1, c.perTenant - {tenant})
    else Counters(c.live - 1, c.perTenant[tenant := Of(c, tenant) - 1])
  }

  ghost predicate Within(c: Counters, limits: Limits) {
    && c.live <= limits.maxLive
    && (forall t :: t in c.perTenant ==> 1 <= c.perTenant[t] <= limits.maxLivePerTenant)
  }

  lemma ReserveKeeps(c: Counters, limits: Limits, tenant: TenantId)
    requires Within(c, limits)
    ensures var (outcome, c') := Reserve(c, limits, tenant);
      && Within(c', limits)
      && (outcome.Reserved? ==>
            && c'.live == c.live + 1
            && forall t :: Of(c', t) == Of(c, t) + if t == tenant then 1 else 0)
      && (!outcome.Reserved? ==> c' == c)
  {
  }

  lemma ReleaseKeeps(c: Counters, limits: Limits, tenant: TenantId)
    requires Within(c, limits)
    ensures Within(Release(c, tenant), limits)
    ensures Of(c, tenant) > 0 ==>
      && Release(c, tenant).live == c.live - 1
      && forall t :: Of(Release(c, tenant), t) == Of(c, t) - if t == tenant then 1 else 0
  {
  }

  /** A reservation that is given back leaves the counters exactly as they were. */
  lemma ReserveThenRelease(c: Counters, limits: Limits, tenant: TenantId)
    requires Within(c, limits) && Reserve(c, limits, tenant).0.Reserved?
    ensures Release(Reserve(c, limits, tenant).1, tenant) == c
  {
    assert tenant !in c.perTenant ==> c.perTenant[tenant := 1] - {tenant} == c.perTenant;
  }

  class LiveQuota {
    const limits: Limits
    var live: int
    var perTenant: map<TenantId, int>

    function Contents(): Counters
      reads this
    {
      Counters(live, perTenant)
    }

    ghost predicate Valid()
      reads this
    {
      Within(Contents(), limits)
    }

    constructor (maxLive: nat, maxLivePerTenant: nat)
      ensures Valid() && Contents() == NONE_LIVE && limits == Limits(maxLive, maxLivePerTenant)
    {
      limits := Limits(maxLive, maxLivePerTenant);
      live, perTenant := 0, map[];
    }

    method ReserveLive(tenant: TenantId) returns (outcome: ReserveOutcome)
      requires Valid()
      modifies this
      ensures Valid() && (outcome, Contents()) == Reserve(old(Contents()), limits, tenant)
      ensures outcome.Reserved? <==> old(live) < limits.maxLive && Of(old(Contents()), tenant) < limits.maxLivePerTenant
      ensures outcome.Reserved? ==> live == old(live) + 1
      ensures forall t ::
          Of(Contents(), t) == Of(old(Contents()), t) + if outcome.Reserved? && t == tenant then 1 else 0
    {
      var tenantCount := if tenant in perTenant then perTenant[tenant] else 0;
      if live >= limits.maxLive {
        return GlobalQuota;
      }
      if tenantCount >= limits.maxLivePerTenant {
        return TenantQuota;
      }
      live := live + 1;
      perTenant := perTenant[tenant := tenantCount + 1];
      return Reserved;
    }

    method ReleaseLive(tenant: TenantId)
      requires Valid()
      modifies this
      ensures Valid() && Contents() == Release(old(Contents()), tenant)
      ensures Of(old(Contents()), tenant) > 0 ==> live == old(live) - 1
      ensures forall t ::
          Of(Contents(), t) == Of(old(Contents()), t) - if Of(old(Contents()), t) > 0 && t == tenant then 1 else 0
    {
      var tenantCount := if tenant in perTenant then perTenant[tenant] else 0;
      if tenantCount <= 0 {
        return;
      }
      live := live - 1;
      if tenantCount == 1 {
        perTenant := perTenant - {tenant};
      } else {
        perTenant := perTenant[tenant := tenantCount - 1];
      }
    }
  }
}
