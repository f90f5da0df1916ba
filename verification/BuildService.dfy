/**
 * resolve and retry as threads over the build tables: any number of them interleave,
 * image builds and verifications succeed or fail, store calls may raise, and the whole
 * process may die at any point.
 */
module BuildService {
  import opened Prelude
  import opened BuildModel
  import opened BuildStore

  type ThreadId(==, !new)

  datatype Answer = Answer(e: EnvId, env: Env, kind: Kind)

  datatype Pc =
    | Looking                                                    // get_for_request
    | Searching                                                  // find_smallest_superset
    | BindingSuperset(e: EnvId)
    | Creating                                                   // get_or_create_exact
    | BindingExact(e: EnvId, pending: bool)
    | Claiming(e: EnvId, spec: Spec)                             // _build entered with this spec
    | Making(e: EnvId, j: JobId, spec: Spec)                     // build_runtime_image
    | Made(e: EnvId, j: JobId, spec: Spec, image: Image)         // mark_verifying
    | Checking(e: EnvId, j: JobId, spec: Spec, image: Image)     // verify_runtime_image
    | Passed(e: EnvId, j: JobId, spec: Spec, image: Image)       // mark_ready
    | Failing(e: EnvId, j: JobId)                                // mark_failed
    | Rereading                                                  // closing get_for_request
    | RetryLooking
    | Resetting(e: EnvId)                                        // reset_failed
    | Answered(answer: Option<Answer>)
    | Raised

  /** A resolve thread knows its spec; a retry thread only the key it was given. */
  datatype Thread = Resolve(spec: Spec, pc: Pc) | Retry(request: EnvKey, pc: Pc)

  function RequestOf(th: Thread): EnvKey {
    if th.Resolve? then KeyOf(th.spec) else th.request
  }

  datatype Plant = Plant(
    store: Store,
    threads: map<ThreadId, Thread>,
    // History: who builds what, and which packages were verified in which image.
    current: map<EnvId, JobId>,
    builder: map<JobId, ThreadId>,
    verified: map<EnvId, (Image, Packages)>)

  const IDLE := Plant(EMPTY, map[], map[], map[], map[])

  datatype Step =
    | StartResolve(t: ThreadId, spec: Spec)
    | StartRetry(t: ThreadId, request: EnvKey)
    | Look(t: ThreadId, reuse: bool)
    | Search(t: ThreadId, found: Option<EnvId>)
    | BindSuperset(t: ThreadId)
    | Create(t: ThreadId, now: int, env: EnvId)
    | BindExact(t: ThreadId)
    | Claim(t: ThreadId, job: JobId)
    | Make(t: ThreadId, image: Option<Image>)
    | MarkVerifying(t: ThreadId)
    | Verify(t: ThreadId, ok: bool)
    | MarkReady(t: ThreadId)
    | MarkFailed(t: ThreadId)
    | Reread(t: ThreadId)
    | RetryLook(t: ThreadId)
    | ResetEnv(t: ThreadId)
    | Raise(t: ThreadId)
    | Crash

  function Goto(p: Plant, t: ThreadId, pc: Pc): Plant
    requires t in p.threads
  {
    p.(threads := p.threads[t := p.threads[t].(pc := pc)])
  }

  function GetForRequest(store: Store, key: EnvKey): Option<Answer> {
    if key in store.aliases && store.aliases[key].env in store.envs then
      var alias := store.aliases[key];
      Some(Answer(alias.env, store.envs[alias.env], alias.kind))
    else None
  }

  function PackagesOf(parse: Parser, spec: Spec): Packages {
    Wanted(parse, KeyOf(spec))
  }

  // ---------------------------------------------------------------- resolve

  /** Locking, parsing and the pinned-base check come first; a spec that fails them never gets here. */
  function StartResolveStep(parse: Parser, p: Plant, t: ThreadId, spec: Spec): Option<Plant> {
    if t in p.threads || parse(spec.lock).None? then None
    else Some(p.(threads := p.threads[t := Resolve(spec, Looking)]))
  }

  function LookStep(p: Plant, t: ThreadId, reuse: bool): Option<Plant> {
    if t !in p.threads || !p.threads[t].Resolve? || !p.threads[t].pc.Looking? then None
    else
      var found := GetForRequest(p.store, RequestOf(p.threads[t]));
      Some(Goto(p, t,
                if found.None? then (if reuse then Searching else Creating)
                else if found.value.env.status.Pending? then Claiming(found.value.e, p.threads[t].spec)
                else Answered(found)))
  }

  ghost function SearchStep(parse: Parser, p: Plant, t: ThreadId, found: Option<EnvId>): Option<Plant> {
    if t !in p.threads || !p.threads[t].Resolve? || !p.threads[t].pc.Searching? then None
    else if !SmallestSuperset(p.store, RequestOf(p.threads[t]), PackagesOf(parse, p.threads[t].spec), found) then None
    else Some(Goto(p, t, if found.Some? then BindingSuperset(found.value) else Creating))
  }

  function BindSupersetStep(p: Plant, t: ThreadId): Option<Plant> {
    if t !in p.threads || !p.threads[t].pc.BindingSuperset? then None
    else Some(Goto(p.(store := Bind(p.store, RequestOf(p.threads[t]), p.threads[t].pc.e, Superset)), t, Rereading))
  }

  function CreateStep(parse: Parser, p: Plant, t: ThreadId, now: int, uuid: EnvId): Option<Plant> {
    if t !in p.threads || !p.threads[t].Resolve? || !p.threads[t].pc.Creating? || uuid in p.store.envs then None
    else
      var (e, store) := CreateExact(p.store, p.threads[t].spec, PackagesOf(parse, p.threads[t].spec), now, uuid);
      if e !in store.envs then None
      else Some(Goto(p.(store := store), t, BindingExact(e, store.envs[e].status.Pending?)))
  }

  function BindExactStep(p: Plant, t: ThreadId): Option<Plant> {
    if t !in p.threads || !p.threads[t].Resolve? || !p.threads[t].pc.BindingExact? then None
    else
      var pc := p.threads[t].pc;
      Some(Goto(p.(store := Bind(p.store, RequestOf(p.threads[t]), pc.e, Exact)), t,
                if pc.pending then Claiming(pc.e, p.threads[t].spec) else Rereading))
  }

  // ---------------------------------------------------------------- _build

  function ClaimStep(p: Plant, t: ThreadId, uuid: JobId): Option<Plant> {
    if t !in p.threads || !p.threads[t].pc.Claiming? || uuid in p.store.jobs then None
    else
      var (e, spec) := (p.threads[t].pc.e, p.threads[t].pc.spec);
      var (claimed, store) := ClaimBuild(p.store, e, uuid);
      if !claimed then Some(Goto(p, t, Rereading))
      else Some(Goto(p.(store := store, current := p.current[e := uuid], builder := p.builder[uuid := t]), t,
        Making(e, uuid, spec)))
  }

  function MakeStep(p: Plant, t: ThreadId, image: Option<Image>): Option<Plant> {
    if t !in p.threads || !p.threads[t].pc.Making? then None
    else
      var pc := p.threads[t].pc;
      Some(Goto(p, t, if image.Some? then Made(pc.e, pc.j, pc.spec, image.value) else Failing(pc.e, pc.j)))
  }

  function MarkVerifyingStep(p: Plant, t: ThreadId): Option<Plant> {
    if t !in p.threads || !p.threads[t].pc.Made? then None
    else
      var pc := p.threads[t].pc;
      Some(Goto(p.(store := Mark(p.store, pc.e, pc.j, Verifying, None)), t, Checking(pc.e, pc.j, pc.spec, pc.image)))
  }

  /** Verification compares the image with the packages of the spec that _build was given. */
  function VerifyStep(parse: Parser, p: Plant, t: ThreadId, ok: bool): Option<Plant> {
    if t !in p.threads || !p.threads[t].pc.Checking? then None
    else
      var pc := p.threads[t].pc;
      if ok then
        Some(Goto(p.(verified := p.verified[pc.e := (pc.image, PackagesOf(parse, pc.spec))]), t,
          Passed(pc.e, pc.j, pc.spec, pc.image)))
      else Some(Goto(p, t, Failing(pc.e, pc.j)))
  }

  /** The unique index on image_ref may refuse the update. */
  function MarkReadyStep(p: Plant, t: ThreadId): Option<Plant> {
    if t !in p.threads || !p.threads[t].pc.Passed? then None
    else
      var pc := p.threads[t].pc;
      if ImageTaken(p.store, pc.e, pc.image) then Some(Goto(p, t, Failing(pc.e, pc.j)))
      else Some(Goto(p.(store := Mark(p.store, pc.e, pc.j, Ready, Some(pc.image))), t, Rereading))
  }

  function MarkFailedStep(p: Plant, t: ThreadId): Option<Plant> {
    if t !in p.threads || !p.threads[t].pc.Failing? then None
    else
      var pc := p.threads[t].pc;
      Some(Goto(p.(store := Mark(p.store, pc.e, pc.j, Failed, None)), t, Rereading))
  }

  function RereadStep(p: Plant, t: ThreadId): Option<Plant> {
    if t !in p.threads || !p.threads[t].pc.Rereading? then None
    else Some(Goto(p, t, Answered(GetForRequest(p.store, RequestOf(p.threads[t])))))
  }

  // ---------------------------------------------------------------- retry

  function StartRetryStep(p: Plant, t: ThreadId, request: EnvKey): Option<Plant> {
    if t in p.threads then None else Some(p.(threads := p.threads[t := Retry(request, RetryLooking)]))
  }

  function RetryLookStep(p: Plant, t: ThreadId): Option<Plant> {
    if t !in p.threads || !p.threads[t].pc.RetryLooking? then None
    else
      var found := GetForRequest(p.store, RequestOf(p.threads[t]));
      Some(Goto(p, t, if found.Some? && found.value.env.status.Failed? then Resetting(found.value.e) else Raised))
  }

  function ResetStep(p: Plant, t: ThreadId): Option<Plant> {
    if t !in p.threads || !p.threads[t].pc.Resetting? then None
    else
      var e := p.threads[t].pc.e;
      var (done, store) := ResetFailed(p.store, e);
      if !done || e !in store.envs then Some(Goto(p, t, Rereading))
      else Some(Goto(p.(store := store), t, Claiming(e, store.envs[e].spec)))
  }

  // ---------------------------------------------------------------- failures

  /** A store call raised without effect: inside _build's try block that fails the build, elsewhere the caller. */
  function RaiseStep(p: Plant, t: ThreadId): Option<Plant> {
    if t !in p.threads || p.threads[t].pc.Answered? || p.threads[t].pc.Raised? then None
    else
      var pc := p.threads[t].pc;
      Some(Goto(p, t, if pc.Made? || pc.Checking? || pc.Passed? then Failing(pc.e, pc.j) else Raised))
  }

  ghost function Apply(parse: Parser, p: Plant, step: Step): Option<Plant> {
    match step
    case StartResolve(t, spec) => StartResolveStep(parse, p, t, spec)
    case StartRetry(t, request) => StartRetryStep(p, t, request)
    case Look(t, reuse) => LookStep(p, t, reuse)
    case Search(t, found) => SearchStep(parse, p, t, found)
    case BindSuperset(t) => BindSupersetStep(p, t)
    case Create(t, now, uuid) => CreateStep(parse, p, t, now, uuid)
    case BindExact(t) => BindExactStep(p, t)
    case Claim(t, uuid) => ClaimStep(p, t, uuid)
    case Make(t, image) => MakeStep(p, t, image)
    case MarkVerifying(t) => MarkVerifyingStep(p, t)
    case Verify(t, ok) => VerifyStep(parse, p, t, ok)
    case MarkReady(t) => MarkReadyStep(p, t)
    case MarkFailed(t) => MarkFailedStep(p, t)
    case Reread(t) => RereadStep(p, t)
    case RetryLook(t) => RetryLookStep(p, t)
    case ResetEnv(t) => ResetStep(p, t)
    case Raise(t) => RaiseStep(p, t)
    case Crash => Some(p.(threads := map[]))
  }

  ghost function Exec(parse: Parser, p: Plant, steps: seq<Step>): Option<Plant>
    decreases |steps|
  {
    if steps == [] then Some(p)
    else
      match Apply(parse, p, steps[0])
      case None => None
      case Some(p') => Exec(parse, p', steps[1..])
  }
}
