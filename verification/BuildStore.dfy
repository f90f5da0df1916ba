/**
 * The three tables of the build service. Each store call is one transaction and a
 * function on the tables; class BuildDB runs the same statements.
 */
module BuildStore {
  import opened Prelude
  import opened BuildModel

  type EnvId(==, !new)
  type JobId(==, !new)
  type Image(==, !new)

  datatype Status = Pending | Building | Verifying | Ready | Failed

  datatype Env = Env(
    key: EnvKey,
    spec: Spec,
    packages: Packages,
    packageCount: nat,
    image: Option<Image>,
    status: Status,
    createdAt: int)

  datatype Kind = Exact | Superset
  datatype Alias = Alias(env: EnvId, kind: Kind)
  datatype Job = Job(env: EnvId, status: Status)

  /** `index` is the unique index on env_key. */
  datatype Store = Store(
    envs: map<EnvId, Env>, index: map<EnvKey, EnvId>, aliases: map<EnvKey, Alias>, jobs: map<JobId, Job>)

  const EMPTY := Store(map[], map[], map[], map[])

  // ---------------------------------------------------------------- transactions

  function NewEnv(spec: Spec, packages: Packages, now: int): Env {
    Env(KeyOf(spec), spec, packages, |packages|, None, Pending, now)
  }

  /** A READY environment that agrees with the request on everything but may hold more packages. */
  predicate Candidate(store: Store, key: EnvKey, packages: Packages, e: EnvId) {
    && e in store.envs && store.envs[e].status.Ready? && Compatible(store.envs[e].spec, key)
    && Contains(store.envs[e].packages, packages)
  }

  predicate NoLarger(a: Env, b: Env) {
    a.packageCount < b.packageCount || (a.packageCount == b.packageCount && a.createdAt <= b.createdAt)
  }

  /** READY, on the request's own platform and policy, and with every requested package at its version. */
  predicate Suits(env: Env, key: EnvKey, packages: Packages) {
    && env.status == Ready
    && env.spec.baseImage == key.baseImage && env.spec.pythonVersion == key.pythonVersion
    && env.spec.platform == key.platform && env.spec.policy == key.policy
    && forall name :: name in packages ==> name in env.packages && env.packages[name] == packages[name]
  }

  /** Fewer packages, or as many and not younger. */
  predicate Precedes(a: Env, b: Env) {
    a.packageCount <= b.packageCount && (a.packageCount == b.packageCount ==> a.createdAt <= b.createdAt)
  }

  lemma SuitsIff(store: Store, key: EnvKey, packages: Packages)
    ensures forall e :: Candidate(store, key, packages, e) <==> e in store.envs && Suits(store.envs[e], key, packages)
    ensures forall a: Env, b: Env :: NoLarger(a, b) <==> Precedes(a, b)
  {
  }

  /** What ORDER BY package_count, created_at LIMIT 1 may return. */
  ghost predicate SmallestSuperset(store: Store, key: EnvKey, packages: Packages, found: Option<EnvId>) {
    if found.None? then forall e :: !Candidate(store, key, packages, e)
    else
      && Candidate(store, key, packages, found.value)
      && (forall e :: Candidate(store, key, packages, e) ==> NoLarger(store.envs[found.value], store.envs[e]))
  }

  /** INSERT ... ON CONFLICT (env_key) DO NOTHING, else select the row that is there. */
  function CreateExact(store: Store, spec: Spec, packages: Packages, now: int, uuid: EnvId): (EnvId, Store) {
    if KeyOf(spec) in store.index then (store.index[KeyOf(spec)], store)
    else
      (uuid, store.(envs := store.envs[uuid := NewEnv(spec, packages, now)], index := store.index[KeyOf(spec) := uuid]))
  }

  function Bind(store: Store, key: EnvKey, e: EnvId, kind: Kind): Store {
    if key in store.aliases then store else store.(aliases := store.aliases[key := Alias(e, kind)])
  }

  function ResetFailed(store: Store, e: EnvId): (bool, Store) {
    if e in store.envs && store.envs[e].status.Failed?
    then (true, store.(envs := store.envs[e := store.envs[e].(status := Pending, image := None)]))
    else (false, store)
  }

  function ClaimBuild(store: Store, e: EnvId, uuid: JobId): (bool, Store) {
    if e in store.envs && store.envs[e].status.Pending? then
      (true, store.(envs := store.envs[e := store.envs[e].(status := Building)],
        jobs := store.jobs[uuid := Job(e, Building)]))
    else (false, store)
  }

  /** The mark_* updates carry no guard on the current status. */
  function Mark(store: Store, e: EnvId, j: JobId, status: Status, image: Option<Image>): Store {
    Store(
      if e in store.envs
        then store.envs[e := store.envs[e].(
               status := status, image := if image.Some? then image else store.envs[e].image)]
        else store.envs,
      store.index,
      store.aliases,
      if j in store.jobs then store.jobs[j := store.jobs[j].(status := status)] else store.jobs)
  }

  predicate ImageTaken(store: Store, e: EnvId, image: Image) {
    exists f :: f in store.envs && f != e && store.envs[f].image == Some(image)
  }

  // ---------------------------------------------------------------- the store object

  /** No environment but `e` and no job but `j` is touched, no key moves and no alias changes. */
  ghost predicate OnlyRow(store: Store, store': Store, e: EnvId, j: Option<JobId>) {
    && store'.index == store.index && store'.aliases == store.aliases && store'.envs.Keys == store.envs.Keys
    && (forall f :: f in store.envs && f != e ==> store'.envs[f] == store.envs[f])
    && (forall i :: j != Some(i) ==> (i in store'.jobs <==> i in store.jobs) && (i in store.jobs ==>
          store'.jobs[i] == store.jobs[i]))
  }

  class BuildDB {
    var envs: map<EnvId, Env>
    var index: map<EnvKey, EnvId>
    var aliases: map<EnvKey, Alias>
    var jobs: map<JobId, Job>

    function Contents(): Store
      reads this
    {
      Store(envs, index, aliases, jobs)
    }

    constructor ()
      ensures Contents() == EMPTY
    {
      envs, index, aliases, jobs := map[], map[], map[], map[];
    }

    /** The ordered query with LIMIT 1 as a scan that keeps the best row so far. */
    method FindSmallestSuperset(key: EnvKey, packages: Packages) returns (found: Option<EnvId>)
      ensures SmallestSuperset(Contents(), key, packages, found)
      ensures found.None? <==> forall e :: e in envs ==> !Suits(envs[e], key, packages)
      ensures found.Some? ==> found.value in envs && Suits(envs[found.value], key, packages) && forall e ::
        e in envs && Suits(envs[e], key, packages) ==> Precedes(envs[found.value], envs[e])
    {
      SuitsIff(Contents(), key, packages);
      var todo := envs.Keys;
      var store := Contents();
      found := None;
      while todo != {}
        invariant todo <= envs.Keys
        invariant found.Some? ==> Candidate(store, key, packages, found.value)
        invariant forall e :: Candidate(store, key, packages, e) && e !in todo ==>
          found.Some? && NoLarger(envs[found.value], envs[e])
        decreases |todo|
      {
        var e :| e in todo;
        todo := todo - {e};
        if Candidate(store, key, packages, e) && (found.None? || !NoLarger(envs[found.value], envs[e])) {
          found := Some(e);
        }
      }
    }

    method GetOrCreateExact(spec: Spec, packages: Packages, now: int, uuid: EnvId) returns (e: EnvId)
      modifies this
      ensures (e, Contents()) == CreateExact(old(Contents()), spec, packages, now, uuid)
      ensures KeyOf(spec) in index && index[KeyOf(spec)] == e && aliases == old(aliases) && jobs == old(jobs)
      ensures KeyOf(spec) in old(index) ==> Contents() == old(Contents())
      ensures KeyOf(spec) !in old(index) ==>
        && e == uuid && e in envs && index == old(index)[KeyOf(spec) := e]
        && envs[e] == Env(KeyOf(spec), spec, packages, |packages|, None, Pending, now)
      ensures forall f :: f in old(envs) && f != uuid ==> f in envs && envs[f] == old(envs)[f]
    {
      var key := KeyOf(spec);
      if key !in index {
        envs := envs[uuid := NewEnv(spec, packages, now)];
        index := index[key := uuid];
        return uuid;
      }
      return index[key];
    }

    method BindRequest(key: EnvKey, e: EnvId, kind: Kind)
      modifies this
      ensures Contents() == Bind(old(Contents()), key, e, kind)
      ensures key in aliases && (key !in old(aliases) ==> aliases[key] == Alias(e, kind))
      ensures envs == old(envs) && jobs == old(jobs) && forall k ::
        k in old(aliases) ==> k in aliases && aliases[k] == old(aliases)[k]
    {
      if key !in aliases {
        aliases := aliases[key := Alias(e, kind)];
      }
    }

    method Reset(e: EnvId) returns (done: bool)
      modifies this
      ensures (done, Contents()) == ResetFailed(old(Contents()), e)
      ensures OnlyRow(old(Contents()), Contents(), e, None) && (done <==> e in old(envs) && old(envs)[e].status.Failed?)
      ensures done ==> envs[e] == old(envs)[e].(status := Pending, image := None)
    {
      done := e in envs && envs[e].status == Failed;
      if done {
        envs := envs[e := envs[e].(status := Pending, image := None)];
      }
    }

    method Claim(e: EnvId, uuid: JobId) returns (claimed: bool)
      modifies this
      ensures (claimed, Contents()) == ClaimBuild(old(Contents()), e, uuid)
      ensures OnlyRow(old(Contents()), Contents(), e, Some(uuid))
      ensures (claimed <==> e in old(envs) && old(envs)[e].status.Pending?)
      ensures claimed ==> envs[e] == old(envs)[e].(status := Building) && uuid in jobs && jobs[uuid] == Job(e, Building)
      ensures !claimed ==> Contents() == old(Contents())
    {
      claimed := e in envs && envs[e].status == Pending;
      if claimed {
        envs := envs[e := envs[e].(status := Building)];
        jobs := jobs[uuid := Job(e, Building)];
      }
    }

    /** mark_verifying, mark_ready and mark_failed: two updates in one transaction. */
    method MarkBoth(e: EnvId, j: JobId, status: Status, image: Option<Image>)
      modifies this
      ensures Contents() == Mark(old(Contents()), e, j, status, image)
      ensures OnlyRow(old(Contents()), Contents(), e, Some(j))
      ensures e in envs ==>
        envs[e] == old(envs)[e].(status := status, image := if image.None? then old(envs)[e].image else image)
      ensures j in jobs ==> jobs[j].status == status && jobs[j].env == old(jobs)[j].env
    {
      if e in envs {
        envs := envs[e := envs[e].(status := status)];
        if image.Some? {
          envs := envs[e := envs[e].(image := image)];
        }
      }
      if j in jobs {
        jobs := jobs[j := jobs[j].(status := status)];
      }
    }
  }
}
