/**
 * The warm sandbox pool. Workers are shared mutable objects, so they live in a table
 * keyed by identity; the idle lists hold identities only.
 *
 * Every lock region is a function on the table and the lists, and class Pool runs the
 * same region with the source's loops.
 */
module WorkerPool {
  import opened Prelude
  import opened RunnerModel

  datatype PoolKey = PoolKey(tenant: TenantId, runtime: RuntimeId, profile: ProfileName)

  datatype Worker = Worker(
    home: PoolKey,
    installed: set<ReleaseId>,
    lastUsed: Time,
    runs: nat,
    healthy: bool,
    destroyed: bool)

  type Workers = map<WorkerId, Worker>
  type IdleLists = map<PoolKey, seq<WorkerId>>

  datatype Settings = Settings(idleSeconds: int, maxInstalled: nat)

  predicate IdleExpired(worker: Worker, now: Time, settings: Settings) {
    worker.destroyed || !worker.healthy || now - worker.lastUsed > settings.idleSeconds
  }

  predicate NoRoom(worker: Worker, release: ReleaseId, settings: Settings) {
    release !in worker.installed && |worker.installed| >= settings.maxInstalled
  }

  predicate Usable(workers: Workers, w: WorkerId, release: ReleaseId, now: Time, settings: Settings) {
    w in workers && !IdleExpired(workers[w], now, settings) && !NoRoom(workers[w], release, settings)
  }

  predicate TimedOut(workers: Workers, w: WorkerId, now: Time, settings: Settings) {
    w in workers ==> IdleExpired(workers[w], now, settings)
  }

  /** Alive, healthy, and not idle for longer than the limit: what stays in the pool. */
  predicate Warm(worker: Worker, now: Time, settings: Settings) {
    worker.healthy && !worker.destroyed && now <= worker.lastUsed + settings.idleSeconds
  }

  /** Warm, and with the release on it or room for one more: what an invocation may be given. */
  predicate Fit(worker: Worker, release: ReleaseId, now: Time, settings: Settings) {
    Warm(worker, now, settings) && (release in worker.installed || |worker.installed| < settings.maxInstalled)
  }

  predicate NoDuplicates<T(==)>(s: seq<T>) {
    forall i, j :: 0 <= i < j < |s| ==> s[i] != s[j]
  }

  lemma ConcatNoDuplicates<T>(a: seq<T>, b: seq<T>)
    requires NoDuplicates(a) && NoDuplicates(b) && forall x :: x in a ==> x !in b
    ensures NoDuplicates(a + b)
  {
    forall i, j | 0 <= i < j < |a + b| ensures (a + b)[i] != (a + b)[j] {
      if i < |a| <= j {
        assert a[i] in a && b[j - |a|] in b;
      }
    }
  }

  predicate IsIdle(idle: IdleLists, workers: Workers, w: WorkerId)
    requires w in workers
  {
    workers[w].home in idle && w in idle[workers[w].home]
  }

  /** No list is empty, no worker sits twice in it, and every worker is filed under its own key. */
  ghost predicate Filed(idle: IdleLists, workers: Workers) {
    forall k :: k in idle ==>
      && idle[k] != []
      && NoDuplicates(idle[k])
      && (forall w :: w in idle[k] ==> w in workers && workers[w].home == k)
  }

  // ---------------------------------------------------------------- acquire: the lock region

  datatype Pick = Pick(rest: seq<WorkerId>, stale: seq<WorkerId>, candidate: Option<WorkerId>)

  /** Pops from the end until a usable worker turns up; `stale` lists the others in pop order. */
  function Scan(bucket: seq<WorkerId>, workers: Workers, release: ReleaseId, now: Time, settings: Settings): Pick
  {
    if bucket == [] then Pick([], [], None)
    else
      var last, rest := bucket[|bucket| - 1], bucket[..|bucket| - 1];
      if Usable(workers, last, release, now, settings) then Pick(rest, [], Some(last))
      else
        var p := Scan(rest, workers, release, now, settings);
        Pick(p.rest, [last] + p.stale, p.candidate)
  }

  function Extend(stale: seq<WorkerId>, p: Pick): Pick {
    p.(stale := stale + p.stale)
  }

  function Bucket(idle: IdleLists, key: PoolKey): seq<WorkerId> {
    if key in idle then idle[key] else []
  }

  function Store(idle: IdleLists, key: PoolKey, bucket: seq<WorkerId>): IdleLists {
    if bucket == [] then idle - {key} else idle[key := bucket]
  }

  /** The workers a pick hands to the caller, in pop order. */
  function Popped(p: Pick): seq<WorkerId> {
    p.stale + (if p.candidate.Some? then [p.candidate.value] else [])
  }

  function Backwards<T>(s: seq<T>): seq<T> {
    if s == [] then [] else Backwards(s[1..]) + [s[0]]
  }

  lemma BackwardsGrows<T>(x: T, s: seq<T>)
    ensures Backwards([x] + s) == Backwards(s) + [x]
  {
    assert ([x] + s)[1..] == s;
  }

  /** The pick is the shortest suffix of the bucket ending in a usable worker, or all of it. */
  lemma {:induction false} ScanSplits(bucket: seq<WorkerId>, workers: Workers, release: ReleaseId, now: Time,
                                      settings: Settings)
    ensures var p := Scan(bucket, workers, release, now, settings);
      && p.rest + Backwards(Popped(p)) == bucket
      && (forall w :: w in p.stale ==> w in workers ==> !Fit(workers[w], release, now, settings))
      && (p.candidate.Some? ==>
            p.candidate.value in workers && Fit(workers[p.candidate.value], release, now, settings))
      && (p.candidate.None? ==> p.rest == [])
  {
    if bucket != [] {
      var last, rest := bucket[|bucket| - 1], bucket[..|bucket| - 1];
      assert bucket == rest + [last];
      if Usable(workers, last, release, now, settings) {
        assert Fit(workers[last], release, now, settings);
        hide Usable, Fit;
        JoinSplit(rest, [], last);
      } else {
        ScanSplits(rest, workers, release, now, settings);
        var q := Scan(rest, workers, release, now, settings);
        assert last in workers ==> !Fit(workers[last], release, now, settings);
        hide Usable, Fit;
        PoppedGrows(last, q);
        JoinSplit(q.rest, Popped(q), last);
      }
    }
  }

  lemma PoppedGrows(last: WorkerId, q: Pick)
    ensures Popped(Pick(q.rest, [last] + q.stale, q.candidate)) == [last] + Popped(q)
  {
  }

  lemma JoinSplit<T>(rest: seq<T>, popped: seq<T>, last: T)
    ensures rest + Backwards([last] + popped) == rest + Backwards(popped) + [last]
  {
    BackwardsGrows(last, popped);
  }

  /** Nothing appears on both sides of a split of a duplicate-free list. */
  lemma {:induction false} SplitsApart<T>(left: seq<T>, right: seq<T>, whole: seq<T>)
    requires left + Backwards(right) == whole && NoDuplicates(whole)
    ensures NoDuplicates(left) && NoDuplicates(right)
    ensures forall x :: x in right ==> x !in left
    ensures forall x :: x in whole <==> x in left || x in right
    decreases |right|
  {
    if right == [] {
      assert whole == left;
    } else {
      var front := left + Backwards(right[1..]);
      assert whole == front + [right[0]];
      forall i, j | 0 <= i < j < |front| ensures front[i] != front[j] {
        assert whole[i] == front[i] && whole[j] == front[j];
      }
      SplitsApart(left, right[1..], front);
      forall i | 0 <= i < |front| ensures front[i] != right[0] {
        assert whole[i] == front[i] && whole[|front|] == right[0];
      }
      assert right == [right[0]] + right[1..];
      assert right[0] !in front;
      ConcatNoDuplicates([right[0]], right[1..]);
    }
  }

  /** What the lock region of acquire guarantees for the list it pops from. */
  lemma PopKeeps(idle: IdleLists, workers: Workers, key: PoolKey, release: ReleaseId, now: Time, settings: Settings)
    requires Filed(idle, workers)
    ensures var p := Scan(Bucket(idle, key), workers, release, now, settings);
      var idle' := Store(idle, key, p.rest);
      && Filed(idle', workers)
      && NoDuplicates(Popped(p))
      && (forall w :: w in Popped(p) ==>
            w in workers && workers[w].home == key && IsIdle(idle, workers, w) && !IsIdle(idle', workers, w))
      && (forall w :: w in workers && w !in Popped(p) ==> (IsIdle(idle', workers, w) <==> IsIdle(idle, workers, w)))
      && (forall w :: w in p.stale ==> !Fit(workers[w], release, now, settings))
      && (p.candidate.Some? ==> Fit(workers[p.candidate.value], release, now, settings))
  {
    hide Fit;
    var bucket := Bucket(idle, key);
    var p := Scan(bucket, workers, release, now, settings);
    ScanSplits(bucket, workers, release, now, settings);
    SplitsApart(p.rest, Popped(p), bucket);
  }

  lemma AppendKeeps(idle: IdleLists, workers: Workers, w: WorkerId)
    requires Filed(idle, workers) && w in workers && !IsIdle(idle, workers, w)
    ensures var home := workers[w].home;
      var idle' := idle[home := Bucket(idle, home) + [w]];
      && Filed(idle', workers)
      && (forall x :: x in workers ==> (IsIdle(idle', workers, x) <==> x == w || IsIdle(idle, workers, x)))
  {
    ConcatNoDuplicates(Bucket(idle, workers[w].home), [w]);
  }

  // ---------------------------------------------------------------- reap: the lock region

  function Kept(bucket: seq<WorkerId>, workers: Workers, now: Time, settings: Settings): seq<WorkerId>
  {
    if bucket == [] then []
    else
      var front := Kept(bucket[..|bucket| - 1], workers, now, settings);
      var last := bucket[|bucket| - 1];
      if TimedOut(workers, last, now, settings) then front else front + [last]
  }

  lemma {:induction false} KeptSpec(bucket: seq<WorkerId>, workers: Workers, now: Time, settings: Settings)
    ensures forall w ::
        w in Kept(bucket, workers, now, settings) <==> w in bucket && !TimedOut(workers, w, now, settings)
    ensures NoDuplicates(bucket) ==> NoDuplicates(Kept(bucket, workers, now, settings))
  {
    if bucket != [] {
      var init, last := bucket[..|bucket| - 1], bucket[|bucket| - 1];
      assert bucket == init + [last];
      KeptSpec(init, workers, now, settings);
      if NoDuplicates(bucket) {
        forall i, j | 0 <= i < j < |init| ensures init[i] != init[j] {
          assert bucket[i] == init[i] && bucket[j] == init[j];
        }
        assert last !in init by {
          forall i | 0 <= i < |init| ensures init[i] != last { assert bucket[i] == init[i]; }
        }
      }
    }
  }

  function Swept(idle: IdleLists, workers: Workers, now: Time, settings: Settings): IdleLists
  {
    map k | k in idle && Kept(idle[k], workers, now, settings) != [] :: Kept(idle[k], workers, now, settings)
  }

  /** `stale` lists, once each, exactly the idle workers whose time is up. */
  ghost predicate SweepOf(stale: seq<WorkerId>, idle: IdleLists, workers: Workers, now: Time, settings: Settings) {
    && NoDuplicates(stale)
    && (forall w :: w in stale <==> w in workers && IsIdle(idle, workers, w) && IdleExpired(workers[w], now, settings))
  }

  lemma StaleIsNotWarm(stale: seq<WorkerId>, idle: IdleLists, workers: Workers, now: Time, settings: Settings)
    requires SweepOf(stale, idle, workers, now, settings)
    ensures forall w ::
        w in workers && IsIdle(idle, workers, w) ==> (w in stale <==> !Warm(workers[w], now, settings))
  {
    hide IsIdle;
  }

  /** The workers that stay keep their order. */
  lemma {:induction false} KeptInOrder(front: seq<WorkerId>, back: seq<WorkerId>, workers: Workers, now: Time,
                                       settings: Settings)
    ensures Kept(front + back, workers, now, settings)
      == Kept(front, workers, now, settings) + Kept(back, workers, now, settings)
    decreases |back|
  {
    if back == [] {
      assert front + back == front;
    } else {
      assert (front + back)[..|front + back| - 1] == front + back[..|back| - 1];
      KeptInOrder(front, back[..|back| - 1], workers, now, settings);
    }
  }

  lemma SweepKeeps(stale: seq<WorkerId>, idle: IdleLists, workers: Workers, now: Time, settings: Settings)
    requires Filed(idle, workers) && SweepOf(stale, idle, workers, now, settings)
    ensures var idle' := Swept(idle, workers, now, settings);
      && Filed(idle', workers)
      && (forall w :: w in workers ==> (IsIdle(idle', workers, w) <==> IsIdle(idle, workers, w) && w !in stale))
      && (forall w :: w in workers && IsIdle(idle, workers, w) ==> (w in stale <==> !Warm(workers[w], now, settings)))
  {
    StaleIsNotWarm(stale, idle, workers, now, settings);
    hide Warm;
    forall k | k in idle {
      KeptSpec(idle[k], workers, now, settings);
    }
    var idle' := Swept(idle, workers, now, settings);
    forall w | w in workers
      ensures IsIdle(idle', workers, w) <==> IsIdle(idle, workers, w) && w !in stale
    {
      var k := workers[w].home;
      if k in idle {
        assert w in Kept(idle[k], workers, now, settings) <==> w in idle[k] && !IdleExpired(workers[w], now, settings);
      }
    }
  }

  /** State of a sweep that still has the lists in `todo` to visit. */
  ghost predicate ListsVisited(todo: set<PoolKey>, idle: IdleLists, before: IdleLists, workers: Workers, now: Time,
                               settings: Settings)
    requires Filed(before, workers)
  {
    && todo <= before.Keys && idle.Keys <= before.Keys
    && (forall k :: k in todo ==> k in idle && idle[k] == before[k])
    && (forall k :: k in before && k !in todo ==>
          var kept := Kept(before[k], workers, now, settings);
          (k in idle <==> kept != []) && (k in idle ==> idle[k] == kept))
  }

  ghost predicate StaleSoFar(todo: set<PoolKey>, stale: seq<WorkerId>, before: IdleLists, workers: Workers, now: Time,
                             settings: Settings) {
    && NoDuplicates(stale)
    && (forall w :: w in stale <==>
          w in workers && IsIdle(before, workers, w) && workers[w].home !in todo
            && IdleExpired(workers[w], now, settings))
  }

  function Visit(idle: IdleLists, key: PoolKey, kept: seq<WorkerId>): IdleLists {
    if kept != [] then idle[key := kept] else idle - {key}
  }

  lemma VisitKeeps(todo: set<PoolKey>, key: PoolKey, idle: IdleLists, before: IdleLists, workers: Workers, now: Time,
                   settings: Settings)
    requires Filed(before, workers) && ListsVisited(todo, idle, before, workers, now, settings) && key in todo
    ensures ListsVisited(todo - {key}, Visit(idle, key, Kept(before[key], workers, now, settings)), before, workers,
      now, settings)
  {
  }

  lemma AllVisited(idle: IdleLists, before: IdleLists, workers: Workers, now: Time, settings: Settings)
    requires Filed(before, workers) && ListsVisited({}, idle, before, workers, now, settings)
    ensures idle == Swept(before, workers, now, settings)
  {
  }

  lemma StaleGrows(todo: set<PoolKey>, key: PoolKey, stale: seq<WorkerId>, out: seq<WorkerId>, before: IdleLists,
                   workers: Workers, now: Time, settings: Settings)
    requires Filed(before, workers) && StaleSoFar(todo, stale, before, workers, now, settings)
    requires key in todo && key in before && NoDuplicates(out)
    requires forall w :: w in out <==> w in before[key] && IdleExpired(workers[w], now, settings)
    ensures StaleSoFar(todo - {key}, stale + out, before, workers, now, settings)
  {
    forall w ensures w in stale + out <==>
        w in workers && IsIdle(before, workers, w) && workers[w].home !in todo - {key}
          && IdleExpired(workers[w], now, settings)
    {
      assert w in stale + out <==> w in stale || w in out;
    }
    ConcatNoDuplicates(stale, out);
  }

  // ---------------------------------------------------------------- the pool object

  class Pool {
    const settings: Settings
    var workers: Workers
    var idle: IdleLists

    ghost predicate Valid()
      reads this
    {
      Filed(idle, workers)
    }

    constructor (settings: Settings)
      ensures Valid() && workers == map[] && idle == map[] && this.settings == settings
    {
      this.settings := settings;
      workers, idle := map[], map[];
    }

    /** Lock region of acquire. A candidate is fit for the release, the stale workers are not. */
    method PopIdle(key: PoolKey, release: ReleaseId,
                   now: Time) returns (stale: seq<WorkerId>, candidate: Option<WorkerId>)
      requires Valid()
      modifies this`idle
      ensures Valid()
      ensures var p := Scan(Bucket(old(idle), key), workers, release, now, settings);
        stale == p.stale && candidate == p.candidate && idle == Store(old(idle), key, p.rest)
      ensures candidate.Some? ==> candidate.value in workers && Fit(workers[candidate.value], release, now, settings)
      ensures forall w :: w in stale ==> w in workers && !Fit(workers[w], release, now, settings)
    {
      PopKeeps(idle, workers, key, release, now, settings);
      var bucket := if key in idle then idle[key] else [];
      bucket, stale, candidate := PopUsable(bucket, release, now);
      if bucket == [] {
        idle := idle - {key};
      } else {
        idle := idle[key := bucket];
      }
    }

    /** The popping loop; the list is popped in place, so what is left comes back too. */
    method PopUsable(full: seq<WorkerId>, release: ReleaseId, now: Time)
        returns (bucket: seq<WorkerId>, stale: seq<WorkerId>, candidate: Option<WorkerId>)
      requires forall w :: w in full ==> w in workers
      ensures Pick(bucket, stale, candidate) == Scan(full, workers, release, now, settings)
    {
      bucket, stale, candidate := full, [], None;
      while bucket != []
        invariant forall w :: w in bucket ==> w in workers
        invariant candidate.None?
        invariant Extend(stale, Scan(bucket, workers, release, now, settings))
          == Scan(full, workers, release, now, settings)
        decreases |bucket|
      {
        var worker := bucket[|bucket| - 1];
        bucket := bucket[..|bucket| - 1];
        if IdleExpired(workers[worker], now, settings) {
          stale := stale + [worker];
          continue;
        }
        if release !in workers[worker].installed && |workers[worker].installed| >= settings.maxInstalled {
          stale := stale + [worker];
          continue;
        }
        candidate := Some(worker);
        break;
      }
    }

    /** Unlocked part of release: bookkeeping, then the decision to keep the worker. */
    method Settle(w: WorkerId, now: Time, reuse: bool) returns (keep: bool)
      requires Valid() && w in workers
      modifies this`workers
      ensures Valid()
      ensures workers == old(workers)[w := old(workers)[w].(runs := old(workers)[w].runs + 1, lastUsed := now)]
      ensures keep <==> !workers[w].destroyed && workers[w].healthy && reuse
    {
      workers := workers[w := workers[w].(runs := workers[w].runs + 1, lastUsed := now)];
      keep := !(workers[w].destroyed || !workers[w].healthy || !reuse);
    }

    /** Lock region of release. The caller holds the worker, so it is not idle yet. */
    method Return(w: WorkerId)
      requires Valid() && w in workers && !IsIdle(idle, workers, w)
      modifies this`idle
      ensures Valid()
      ensures idle == old(idle)[workers[w].home := Bucket(old(idle), workers[w].home) + [w]]
    {
      var key := workers[w].home;
      if key !in idle {
        idle := idle[key := []];
      }
      idle := idle[key := idle[key] + [w]];
    }

    /** Lock region of _destroy: only the first caller gets to delete the sandbox. */
    method MarkDestroyed(w: WorkerId) returns (first: bool)
      requires Valid() && w in workers
      modifies this`workers
      ensures Valid()
      ensures first <==> !old(workers)[w].destroyed
      ensures workers == old(workers)[w := old(workers)[w].(destroyed := true)]
    {
      if workers[w].destroyed {
        assert workers == workers[w := workers[w].(destroyed := true)];
        return false;
      }
      workers := workers[w := workers[w].(destroyed := true)];
      return true;
    }

    /** Lock region of reap: a pass over every list, expired workers set aside. */
    method Reap(now: Time) returns (stale: seq<WorkerId>)
      requires Valid()
      modifies this`idle
      ensures Valid()
      ensures idle == Swept(old(idle), workers, now, settings)
      ensures SweepOf(stale, old(idle), workers, now, settings)
      ensures forall w :: w in workers && IsIdle(old(idle), workers, w) ==>
        && (w in stale <==> !Warm(workers[w], now, settings))
        && (IsIdle(idle, workers, w) <==> Warm(workers[w], now, settings))
    {
      ghost var before := idle;
      var todo := idle.Keys;
      stale := [];
      while todo != {}
        invariant ListsVisited(todo, idle, before, workers, now, settings)
        invariant StaleSoFar(todo, stale, before, workers, now, settings)
        decreases |todo|
      {
        var key :| key in todo;
        var kept, out := SplitBucket(idle[key], now);
        StaleGrows(todo, key, stale, out, before, workers, now, settings);
        VisitKeeps(todo, key, idle, before, workers, now, settings);
        stale := stale + out;
        if kept != [] {
          idle := idle[key := kept];
        } else {
          idle := idle - {key};
        }
        todo := todo - {key};
      }
      SweepKeeps(stale, before, workers, now, settings);
      AllVisited(idle, before, workers, now, settings);
    }

    method SplitBucket(bucket: seq<WorkerId>, now: Time) returns (kept: seq<WorkerId>, out: seq<WorkerId>)
      requires NoDuplicates(bucket) && forall w :: w in bucket ==> w in workers
      ensures kept == Kept(bucket, workers, now, settings)
      ensures NoDuplicates(out)
      ensures forall w :: w in out <==> w in bucket && IdleExpired(workers[w], now, settings)
    {
      kept, out := [], [];
      for i := 0 to |bucket|
        invariant kept == Kept(bucket[..i], workers, now, settings)
        invariant NoDuplicates(out)
        invariant forall w :: w in out <==> w in bucket[..i] && IdleExpired(workers[w], now, settings)
      {
        assert bucket[..i + 1][..i] == bucket[..i];
        if IdleExpired(workers[bucket[i]], now, settings) {
          out := out + [bucket[i]];
        } else {
          kept := kept + [bucket[i]];
        }
      }
      assert bucket[..|bucket|] == bucket;
    }
  }
}
