# Managed Python operators: verified model

A Dafny model of the parts of this repository that are hardest to get right by reading:
the runner's execution protocol, the runtime environment cache, the contract compiler with
its two generated adapters, and content identity with the contract store. Every database
transaction, every lock region and every call into a backend is one atomic step. Callers
interleave between any two steps; processes may die anywhere.

Check everything with `dafny verify dfyconfig.toml`.

## How it is laid out

- **Runner** (`RunnerModel`, `RunnerState`, `Quota`, `WorkerPool`, `Runner`, `RunnerCustody`,
  `RunnerTokens`, `RunnerLedger`, `RunnerTheorems`, `RunnerDisposal`, `RunnerProgress`,
  `RunnerCancel`, `RunnerAnswers`, `RunnerUse`). `RunnerState`, `Quota` and `WorkerPool` hold the tables, the counters and the idle lists: a function for each transaction or
  lock region, and a class (`RunnerDB`, `LiveQuota`, `Pool`) whose methods run the same statements
  and loops. `Runner` is the transition system: one program counter per `invoke`, `cancel` or
  `reap`, thirty kinds of step, failing backends and failing store calls included. The next three
  modules each prove one family of invariants for every step, and `RunnerTheorems`,
  the rest state what follows for whole schedules. What a transaction does to its rows is said
  once more in plain terms (`Begins`, `Finishes`, `Abandons`, `Resets`, `Expires`, `Forgets`).
- **Environment cache** (`BuildModel`, `LockText`, `LockFile`, `BuildStore`, `BuildService`,
  `BuildTheorems`, `BuildPins`, `BuildHistory`, `BuildRuns`). `resolve` and `retry` as threads over the environment, alias and
  job tables; lock files down to their characters.
- **Compiler and adapters** (`Contracts`, `Compiler`, `CompilerTheorems`, `Adapters`,
  `AdapterTheorems`, `ContractMeaning`, `PlanContents`). The adapters are interpreters of a plan over a `World` of
  foreign functions: UTF-8, JSON, `str`, and the operator's own code, all of which may fail.
- **Generated modules** (`TextReplace`, `PlanText`, `PlanStrings`, `Rendering`, `RenderingTheorems`,
  `ClassNameLeak`, `LiteralReading`, `JsonText`, `PlanJson`, `PlanReading`, `ModulesAgree`). The text
  of a plan, character by character: JSON with sorted keys, inside a Python literal, put into a
  template by textual replacement; and readers for Python literals, JSON and plans that read it back.
- **Identity, packing, publishing** (`ResultCodec`, `SourceIdentity`, `Archive`, `ArchiveTheorems`,
  `Backends`, `PublishStore`, `PublishService`, `PublishTheorems`, `PublishContents`). Contracts are saved as they are
  and compiled again from what the store gives back.
- `Prelude` and `Names` hold what is shared: optional values, bytes, Python's string order.

## Two properties that do not hold as one would hope

**Order of bindings.** A compiled plan is not always independent of the order of the binding
maps. Two bindings may define the same operator parameter; the compiler compares the definitions
with Python's `==`, for which `1`, `True` and `1.0` are equal, and keeps the later one
(`operator_authoring/compiler.py:126-129`). The plan then lists the default of whichever binding
came last. `CompilerTheorems.OneIsTrue` and `CompilerTheorems.OrderShows` give the inputs, and
`CompilerTheorems.OrderFreeIff` proves the exact condition: order is invisible if and only if no
key is defined twice with different defaults in the map that decides it (the arguments if they
define the key, otherwise the constructor arguments). What the adapters compute never depends on
order (`AdapterTheorems.MeaningIsOrderFree`).

**The native processor's plan.** The native module is made by four replacements, each over the
whole text so far (`publish_service/backends/nifi_native.py:319-325`). The last three also run over
the plan, which the first one put in, so `__PROPERTIES_JSON__`, `__CLASS_NAME__` and
`__DESCRIPTION__` inside a string of the contract are replaced as well. The runner's module has one
replacement only and always carries the plan as it is
(`operator_authoring/adapter_generator.py:194`, `Rendering.RunnerCarriesPlan`).
`RenderingTheorems.PlanSurvivesIff` gives the exact condition: the plan's text survives if and only
if none of the three markers occurs in a string of the plan (`Carried`), the class marker being
harmless for a class of that very name. A contract and a callable without markers in their
strings satisfy it (`RenderingTheorems.MarkerFreeIsCarried`), and then the two backends agree
(`RenderingTheorems.BackendsAgree`). `ClassNameLeak.ClassNameLeaks` is the failing contract: with
the constant `__CLASS_NAME__` the runner passes that text on, and the native processor passes its
own class name (`ModulesAgree.ClassNameLeaksForReal`).

A third expectation fails by design of the active map: a cancel may reach another invocation's
worker. `RunnerCancel.CancelHitsItsOwn` has the exact condition and `RunnerCancel.CancelCanHitAnother`
the reachable state.

## Model

| member | source | states |
|---|---|---|
| `RunnerState.BeginKeeps` | runner_engine/state.py:425-521 | begin_run keeps the tables coherent and changes no terminal run; it refuses other content as a conflict and a running request as in progress, repeats a result exactly if that is stored, final and not yet expired, and otherwise claims the key anew with a fresh RUNNING run |
| `RunnerState.FinishKeeps` | runner_engine/state.py:533-607 | finish_run commits exactly when the run is still RUNNING, the second check never failing alone; claim and history row are then settled with this result, kept for the retention period if it is final and for no time if it is to be retried |
| `RunnerState.AbandonKeeps` | runner_engine/state.py:609-648 | abandon_run gives up exactly this run, as an infrastructure failure that is never replayed, and drops exactly the claim it holds; coherence is kept |
| `RunnerState.ResetKeeps` | runner_engine/state.py:388-409 | reset_running gives up every running execution and drops exactly the running claims; coherence is kept |
| `RunnerState.PurgeExpiredKeeps` | runner_engine/state.py:650-660 | exactly the claims whose time is up go; coherence is kept |
| `RunnerState.PurgeOldRunsKeeps` | runner_engine/state.py:662-684 | exactly the ended runs older than the cutoff that no unexpired claim needs go; coherence is kept |
| `RunnerState.RunnerDB.BeginRun` | runner_engine/state.py:425-521 | the statements are the specified transaction, with every answer and every row in plain terms; coherent tables stay coherent |
| `RunnerState.RunnerDB.FinishRun` | runner_engine/state.py:533-607 | two guarded updates, the first rolled back when the second misses; the exact contents of both rows, retention included, and nothing else changed |
| `RunnerState.RunnerDB.AbandonRun` | runner_engine/state.py:609-648 | the two guarded updates are the specified transaction, row by row; coherent tables stay coherent |
| `RunnerState.RunnerDB.Reset` | runner_engine/state.py:388-409 | the count of executions that were running, and every row afterwards; coherent tables stay coherent |
| `RunnerState.RunnerDB.PurgeExpiredIdempotency` | runner_engine/state.py:650-660 | exactly the lapsed claims are gone, as many as counted; coherent tables stay coherent |
| `RunnerState.RunnerDB.PurgeRuns` | runner_engine/state.py:662-684 | exactly the outdated runs are gone, as many as counted; coherent tables stay coherent |
| `Quota.ReserveKeeps` | runner_engine/quota.py:36-45 | limits hold after every reservation; success adds one to exactly one tenant and to the total, refusal changes nothing |
| `Quota.ReleaseKeeps` | runner_engine/quota.py:47-55 | limits hold; a tenant that has tokens loses exactly one |
| `Quota.ReserveThenRelease` | runner_engine/quota.py:36-55 | a reservation given back leaves the counters as they were |
| `Quota.LiveQuota.ReserveLive` | runner_engine/quota.py:36-45 | succeeds exactly below both limits, and then adds one to this tenant and to the total, to no other tenant |
| `Quota.LiveQuota.ReleaseLive` | runner_engine/quota.py:47-55 | takes one from this tenant and from the total if it has any, from no other tenant |
| `WorkerPool.ScanSplits` | runner_engine/pool.py:78-92 | the popped stale workers, the candidate and the rest are the bucket in order; the candidate is healthy, not destroyed, within its idle time and has the release or room for it, the stale ones are not; without a candidate nothing is left |
| `WorkerPool.PopKeeps` | runner_engine/pool.py:78-95 | what is popped leaves the idle lists, without duplicates; a candidate is fit for the release, in plain terms, and a stale worker is not |
| `WorkerPool.AppendKeeps` | runner_engine/pool.py:140-142 | exactly the returned worker becomes idle, and no worker is listed twice |
| `WorkerPool.SweepKeeps` | runner_engine/pool.py:164-176 | after a sweep exactly the workers that are destroyed, unhealthy or idle for too long are gone from the lists |
| `WorkerPool.KeptInOrder` | runner_engine/pool.py:164-176 | the workers that stay keep their order |
| `WorkerPool.Pool.PopIdle` | runner_engine/pool.py:78-95 | the lock region of acquire; the candidate is fit for the release, the stale workers are not |
| `WorkerPool.Pool.PopUsable` | runner_engine/pool.py:80-92 | the popping loop computes the specified split |
| `WorkerPool.Pool.Settle` | runner_engine/pool.py:132-138 | bookkeeping of release; kept exactly when alive, healthy and reusable |
| `WorkerPool.Pool.Return` | runner_engine/pool.py:140-142 | the worker is appended to the list of its own key |
| `WorkerPool.Pool.MarkDestroyed` | runner_engine/pool.py:151-154 | exactly the first caller may delete the sandbox |
| `WorkerPool.Pool.Reap` | runner_engine/pool.py:161-176 | the nested loops keep exactly the warm workers and collect exactly the others |
| `RunnerCustody.CustodyKept` | runner_engine/pool.py:73-142 | every step of every thread keeps each worker idle, or in the hands of one thread of its own tenant, runtime and profile |
| `RunnerTokens.DeletionKept` | runner_engine/pool.py:144-159 | every step keeps one deleter per destroyed worker whose token is still out |
| `RunnerTokens.AliasesKept` | runner_engine/service.py:203-212 | every step keeps each active entry naming a worker of the entry's tenant |
| `RunnerTokens.TokensKept` | runner_engine/pool.py:110-130 | every step keeps the counters equal to charged workers plus creations in flight |
| `RunnerLedger.BooksKept` | runner_engine/service.py:179-302 | every step keeps the database, the history of commits and the threads in agreement: each running row has exactly one thread behind it |
| `RunnerTheorems.ReachableInv` | runner_engine/service.py:140-316 | all of the above holds in every reachable state |
| `RunnerTheorems.ResultAgreement` | runner_engine/state.py:425-471 | after a non-retryable commit, over any schedule and until expiry, begin_run for the key replays that very result or refuses other content, and starts nothing |
| `RunnerAnswers.CommittedIsReplayed` | runner_engine/state.py:533-607 | after a finish_run that committed a final result, over any schedule, every begin_run for its key within the retention period repeats that result or refuses other content, and starts nothing |
| `RunnerAnswers.ExpiredRunsAgain` | runner_engine/state.py:448-519 | in every reachable state, once every final result of a key has expired and nothing of it runs, the next begin_run with an agreeing or no fingerprint claims the key and runs |
| `RunnerAnswers.RunsOnlyIfOver` | runner_engine/state.py:425-519 | a request is run only if nothing of its key is running and every final result of its key has expired |
| `RunnerAnswers.FinishCommits` | runner_engine/state.py:533-607 | a finish_run that gets through records this result for this request, to expire after the retention period if it is final and at once if not |
| `RunnerTheorems.OneAnswerPerWindow` | runner_engine/state.py:450-519 | of two final results of one key, one run started only after the other's expiry |
| `RunnerTheorems.AnswersAreCommitted` | runner_engine/service.py:179-261 | whatever invoke returns was committed for its own key and fingerprint, a fresh result by its own run |
| `RunnerTheorems.OneRunningPerKey` | runner_engine/state.py:472-519 | at most one running execution per key, and the claim names it |
| `RunnerTheorems.ClaimsKeepTheirRuns` | runner_engine/state.py:650-684 | a running or unexpired claim always has its run in the history, whatever the purges do |
| `RunnerTheorems.ClaimNeverLostAlone` | runner_engine/state.py:575-607 | the state-lost error for the claim alone cannot happen |
| `RunnerTheorems.TerminalForever` | runner_engine/state.py:388-409 | DONE and ABANDONED rows never change again, over any schedule with resets and restarts |
| `RunnerTheorems.WorkersAreExclusive` | runner_engine/pool.py:73-142 | no worker is held by two threads, or held while idle, and a holder's worker is of its tenant, runtime and profile |
| `RunnerUse.WorkersAreEquipped` | runner_engine/pool.py:67-130 | in every reachable state the worker of an invocation is of its tenant, runtime and profile and has its release installed, whatever else runs |
| `RunnerUse.InstalledWithinLimit` | runner_engine/pool.py:85-92 | no worker ever carries more releases than the limit allows, one always being allowed |
| `RunnerUse.ReturnsIff` | runner_engine/service.py:245-258 | after the commit a worker goes back exactly if its sandbox survives the result, the policy reuses sandboxes and it is healthy and not destroyed; else it is retired; its use is booked |
| `RunnerUse.OnlySurvivorsReturn` | runner_engine/pool.py:132-142 | what is appended to an idle list survived its result and is of that list |
| `RunnerUse.PreparesIff` | runner_engine/pool.py:100-108 | a prepared worker has its release and counts as used; a failed preparation retires it and gives up the run |
| `RunnerUse.CreatesFresh` | runner_engine/pool.py:114-122 | a new worker is unused, of the request's kind, and has exactly its release |
| `RunnerUse.ReservesIff` | runner_engine/quota.py:36-45 | a worker is made exactly while both limits leave room |
| `RunnerUse.DrainsIff` | runner_engine/pool.py:97-110 | stale workers are destroyed first, then the candidate is used, or a worker made |
| `RunnerUse.RegistersIff` | runner_engine/service.py:202-212 | an invocation is registered under its id exactly if that is free |
| `RunnerUse.ExecutesIff` | runner_engine/service.py:214-233 | what the backend answers is what will be committed; if it raises, worker and run are given up |
| `RunnerUse.RaiseEndsLoop` | runner_engine/pool.py:97-98 | a deletion that raises ends the stale loop and the reaper's loop, which drop what they still had, and changes nothing elsewhere |
| `RunnerUse.ActiveIdsAreRefused` | runner_engine/service.py:175-177 | a request whose invocation id is active is refused before anything is claimed |
| `RunnerUse.RestartClears` | runner_engine/service.py:84-90 | after a restart nothing runs, nothing is in memory, and exactly the unexpired settled claims are left |
| `RunnerTheorems.CancelStaysInTenant` | runner_engine/service.py:304-316 | a cancel retires only workers of the tenant that asked |
| `RunnerTheorems.RetiredOnce` | runner_engine/pool.py:148-159 | a token is returned once per worker, for a destroyed one, and the guard of release_live is not taken |
| `RunnerTheorems.TokensConserved` | runner_engine/quota.py:36-55 | per tenant: live count equals undestroyed workers plus creations in flight plus unfinished deletions, within limits |
| `RunnerTheorems.TokensConservedGlobally` | runner_engine/quota.py:36-55 | the same over all tenants |
| `RunnerTheorems.FinishedRunIsOver` | runner_engine/service.py:252-302 | the run of a finished invoke is over unless abandon_run itself failed |
| `RunnerTheorems.QuietRunnerIsClean` | runner_engine/service.py:196-302 | when all threads are through, every worker is idle, retired with its token returned, or dropped by a loop that raised, and running rows are failed abandons |
| `RunnerTheorems.SmoothRunLosesNothing` | runner_engine/pool.py:97-98 | without a raising destroy or a failing abandon_run nothing is dropped or orphaned |
| `RunnerDisposal.StepKeepsLost` | runner_engine/pool.py:97-98 | every step keeps: a dropped worker lies nowhere and the thread that took it last has raised |
| `RunnerDisposal.FinishedThreadSettles` | runner_engine/pool.py:132-159 | in every reachable state, each worker a finished thread took and nobody took since is idle, retired with its token returned, or being deleted by exactly one other thread; or the thread raised and dropped it |
| `RunnerDisposal.ReturnedDropsNothing` | runner_engine/service.py:245-261 | an invoke that returned or replayed a result dropped no worker |
| `RunnerDisposal.InvokeLeavesNothingBehind` | runner_engine/service.py:196-302 | an invoke past its stale loop, on any schedule and whatever destroy raises, ends with its run over and each of its workers idle, retired or being deleted by exactly one other thread |
| `RunnerProgress.OwnStepAdvances` | runner_engine/service.py:140-302 | each own step takes a thread strictly closer to its end and moves no other thread |
| `RunnerProgress.NeverStuck` | runner_engine/service.py:140-302 | in every reachable state an unfinished thread has an enabled next step |
| `RunnerCancel.EntryOwner` | runner_engine/service.py:203-302 | with distinct invocation ids every active entry belongs to one invoke, and that invoke holds the named worker exactly until it has returned or retired it |
| `RunnerCancel.CancelsIff` | runner_engine/service.py:304-316 | a cancel takes the entry out of the active map and retires its worker exactly for the entry's tenant and lease, and else changes nothing |
| `RunnerCancel.CancelHitsItsOwn` | runner_engine/service.py:304-316 | a cancel reaches a worker its own invocation holds exactly if that invoke has not let go of it |
| `RunnerCancel.CancelCanHitAnother` | runner_engine/service.py:304-316 | a reachable state in which the cancel of one invocation retires the worker of another |
| `LockText.ClassifySpec` | build_service/model.py:10-36 | a line is read as a pin exactly when it is a name, two equal signs and a version, and no option; the name comes out canonical |
| `LockText.ClassifySkips` | build_service/model.py:20-24 | a line is passed over exactly when it is blank, a comment, an option or indented |
| `LockText.ClassifyRefuses` | build_service/model.py:25-30 | a line is refused exactly when it is neither passed over nor a pin |
| `LockText.CanonicalIsCanonical` | build_service/model.py:31-32 | canonical names have no capitals, and single dashes for runs of separators |
| `LockText.CanonicalStays` | build_service/model.py:31-32 | canonical names stay as they are |
| `LockText.LinesReadBack` | build_service/model.py:20-20 | lines written with line feeds are the lines read |
| `LockText.LinesSpec` | build_service/model.py:20-20 | a text without breaks is one line, and exactly the breaks of str.splitlines end a line |
| `LockText.CharacterClasses` | build_service/model.py:10-24 | white space, line breaks, name and version characters by their code points |
| `LockText.RunIsADash` | build_service/model.py:31-32 | a run of separators is one dash in a canonical name |
| `LockText.WordIsLowered` | build_service/model.py:31-32 | outside separators exactly the capitals change, to their small letters |
| `LockFile.LockedSpec` | build_service/model.py:17-38 | a lock text parses exactly when every line is blank, comment, option, indented or pin and no package has two versions; then it yields exactly its pins |
| `LockFile.ParseLockedPackages` | build_service/model.py:17-38 | the loop over the lines of the text parses exactly the well-formed texts, to exactly their pins |
| `BuildStore.BuildDB.FindSmallestSuperset` | build_service/store.py:146-168 | a READY row of the same platform holding every pin, the first by package count and age, or none exists |
| `BuildStore.BuildDB.GetOrCreateExact` | build_service/store.py:170-213 | the key then leads to the row returned, a new PENDING one of this spec or the one that was there; everything else stays |
| `BuildStore.BuildDB.BindRequest` | build_service/store.py:215-224 | the key is bound afterwards, and an alias is never rebound |
| `BuildStore.BuildDB.Reset` | build_service/store.py:226-244 | only a FAILED row goes back to PENDING, with its spec and without an image; nothing else changes |
| `BuildStore.BuildDB.Claim` | build_service/store.py:246-271 | only a PENDING row can be claimed; it becomes BUILDING with one new job, and nothing else changes |
| `BuildStore.BuildDB.MarkBoth` | build_service/store.py:273-330 | row and job get the status together; nothing else changes |
| `BuildTheorems.PendingMeansOwnSpec` | build_service/service.py:62-73 | a PENDING row found under a key carries the request's own spec, so building with the request's spec is right |
| `BuildTheorems.StepInv` | build_service/service.py:31-215 | every step of every resolve and retry, failures and crashes included, keeps the tables and the threads consistent |
| `BuildTheorems.ReadyAnswersSatisfy` | build_service/service.py:62-119 | a READY answer has the request's base, Python version, platform and policy, every requested pin, and the image recorded as verified for exactly its packages; bound exactly, it holds nothing else |
| `BuildHistory.ReadyWasVerified` | build_service/service.py:186-192 | for every schedule and every READY environment: at some step a thread checked this very image for exactly the packages of its row, and the check passed |
| `BuildHistory.AnswersWereVerified` | build_service/service.py:186-215 | so was the image of every READY answer |
| `BuildHistory.FailuresAreRecorded` | build_service/service.py:203-213 | after a build or verification that failed, a store call that raised in the build, or an image that is taken, whatever others do, the thread can only record the failure or fail at it; recorded, environment and job are FAILED without an image |
| `BuildRuns.ResolveBuilds` | build_service/service.py:31-119 | a resolve of something new leaves one more READY environment of its own spec and packages with the new image, bound exactly, and answers with it |
| `BuildRuns.BuildSucceeds` | build_service/service.py:157-215 | a build that succeeds turns its environment READY with the new image and its job READY, and answers with that row |
| `BuildRuns.BuildFails` | build_service/service.py:157-215 | a verification that fails turns environment and job FAILED, and that is the answer |
| `BuildRuns.RetryBuilds` | build_service/service.py:121-155 | a retry of a FAILED environment builds that environment's own spec again |
| `BuildRuns.LookGoes` | build_service/service.py:63-85 | a bound request is answered with its environment as it is, or built if that is PENDING; an unbound one is searched for if reuse is allowed, else created |
| `BuildRuns.FoundGoes` | build_service/service.py:99-119 | an environment that exists already under the key is taken as it is, and built only if PENDING |
| `BuildRuns.RetryGoes` | build_service/service.py:121-130 | only a request bound to a FAILED environment is retried |
| `BuildRuns.LateClaimGoes` | build_service/service.py:157-168 | whoever comes second to a build builds nothing |
| `BuildPins.PinsAreInstalled` | build_service/service.py:62-119 | a READY answer holds every package the lock text pins, at that version; bound exactly, no other |
| `BuildTheorems.ReadyForever` | build_service/store.py:215-330 | READY rows and aliases never change, over any schedule |
| `BuildTheorems.LookupsAgree` | build_service/store.py:134-144 | a lookup that once answered READY gives the same answer ever after |
| `BuildTheorems.SearchIsMinimal` | build_service/store.py:146-168 | no READY environment that serves the request has fewer packages than the one bound |
| `BuildTheorems.BuilderOwns` | build_service/service.py:157-215 | a builder holds its environment's one live job and works from the environment's own spec |
| `BuildTheorems.BuildsAreExclusive` | build_service/store.py:246-271 | two threads never build one environment |
| `BuildTheorems.OneLiveJob` | build_service/store.py:246-330 | BUILDING, VERIFYING and READY environments have exactly one job that is not FAILED, in that same status; others have none; an image exactly when READY |
| `Compiler.Compilation.CompileBinding` | operator_authoring/compiler.py:100-135 | payload and table after one binding, or the conflict with the table unchanged |
| `Compiler.Compilation.CompileBindings` | operator_authoring/compiler.py:138-148 | the loop over one map threads the shared table and reports the first conflict |
| `Compiler.CompileVirtualContract` | operator_authoring/compiler.py:166-235 | the whole compilation computes the specified plan or error |
| `CompilerTheorems.DeclareAllSpec` | operator_authoring/compiler.py:126-129 | declaring succeeds exactly when no two definitions of a key differ under `==`, and the table then holds one definition per key |
| `CompilerTheorems.DeclaredSpec` | operator_authoring/compiler.py:203-213 | the same across both maps, arguments overruling constructor arguments |
| `CompilerTheorems.BestSpec` | operator_authoring/model.py:91-102 | the selected callable is the first of the highest score with its id, or the id is nowhere |
| `CompilerTheorems.CompilesIff` | operator_authoring/compiler.py:166-213 | a contract compiles exactly when it is for this snapshot, the snapshot parses, the callable is supported, the bindings are complete and known, and the parameter definitions agree |
| `PlanContents.CompilesExactly` | operator_authoring/compiler.py:55-213 | the same in plain terms: no coroutine, keyword parameters only, every bound name known, every required one bound, and all definitions of an operator parameter saying the same |
| `PlanContents.RefusalsAreJustified` | operator_authoring/compiler.py:166-213 | whatever error compiling reports is a fact about the contract and the snapshot |
| `PlanContents.PlanDescribes` | operator_authoring/compiler.py:215-235 | the plan has the contract's origin, output and digest, its operator parameters in key order, each as a binding defines it, and its output names in order |
| `PlanContents.PyEqualIff` | operator_authoring/compiler.py:126-129 | `==` on values: numbers by amount, True being 1; byte strings by content; lists and dictionaries item by item |
| `CompilerTheorems.ReorderedCompiles` | operator_authoring/compiler.py:166-235 | reordering never turns success into failure or back; plan and digest stay the same but for defaults that are equal under `==` |
| `CompilerTheorems.OrderFreeIff` | operator_authoring/compiler.py:126-129 | the plan is independent of order exactly for settled contracts |
| `CompilerTheorems.OrderShows` | operator_authoring/compiler.py:126-129 | any two defaults equal under `==` but not identical give an order-dependent plan |
| `CompilerTheorems.OneIsTrue` | operator_authoring/compiler.py:126-129 | two bindings with defaults 1 and True compile in both orders, to different plans |
| `CompilerTheorems.DigestDecides` | operator_authoring/compiler.py:46-52 | two contracts have one digest exactly when they differ only in the order of their bindings |
| `Adapters.BuildKwargs` | operator_authoring/adapter_generator.py:82-88 | the loop computes the first failure in key order or the given arguments |
| `Adapters.FollowPath` | operator_authoring/adapter_generator.py:98-107 | the loop follows the path part by part |
| `AdapterTheorems.GatherSpec` | operator_authoring/adapter_generator.py:82-88 | arguments hold exactly the bindings that resolved to a value; a failure is some binding's own |
| `AdapterTheorems.CompiledIsClosed` | operator_authoring/compiler.py:215-221 | compiled bindings ask only for attributes and parameters the plan lists |
| `AdapterTheorems.PlanListsExactly` | operator_authoring/compiler.py:215-235 | the plan lists exactly the attributes and parameter keys its contract's bindings name, attributes in order |
| `AdapterTheorems.FilteredKwargs` | runner_engine/service.py:24-28 | filtered attributes give the same arguments as unfiltered ones |
| `AdapterTheorems.FilterSpec` | runner_engine/service.py:24-28 | exactly the listed keys get through |
| `AdapterTheorems.ServedIsGuarded` | runner_engine/service.py:158-216 | whatever the adapter does, no attribute the release does not list gets in or out |
| `AdapterTheorems.PublishedLists` | runner_engine/publisher.py:110-130 | the release lists are the plan's, and publishing is refused exactly when an output attribute has an empty name |
| `AdapterTheorems.ServedIsProcess` | runner_engine/service.py:158-216 | with both filters around it, a published adapter computes what it computes without them |
| `AdapterTheorems.PlanCallsAreWellFormed` | operator_authoring/compiler.py:84-135 | given the compiled plan, for every input both adapters report an input failure, or pass every required parameter and no unknown one, to constructor and callable |
| `AdapterTheorems.NativeArguments` | publish_service/backends/nifi_native.py:111-170 | on any input the native adapter builds the arguments the runner's builds without None values and bytearrays |
| `AdapterTheorems.AdaptersAgree` | publish_service/backends/nifi_native.py:192-303 | for the same parameters the runner's answer is NiFi's reading of the native one, or both fail |
| `AdapterTheorems.FilteredAdaptersAgree` | publish_service/backends/runner.py:44-60 | given the compiled plan, for every contract that compiles and publishes, the filtered runner and the native adapter agree on content and attributes |
| `AdapterTheorems.MeaningIsOrderFree` | operator_authoring/adapter_generator.py:145-184 | what the adapter computes and publishes does not depend on binding order |
| `TextReplace.ReplaceChanges` | publish_service/backends/nifi_native.py:321-324 | a replacement leaves a text as it is exactly when the marker does not occur in it or stands for itself |
| `TextReplace.EncodeReplace` | publish_service/backends/nifi_native.py:306-322 | replacing after escaping is escaping after replacing, for the escapes of JSON and of literals |
| `PlanText.LiteralOccurs` | publish_service/backends/nifi_native.py:306-322 | the embedded literal holds a marker exactly when one of the strings written in it does |
| `PlanStrings.PlanIsFree` | operator_authoring/compiler.py:166-235 | every string of a compiled plan comes from its contract or its callable: without a marker there, there is none in the plan's text |
| `Rendering.RenderIsRewritten` | publish_service/backends/nifi_native.py:319-325 | the four chained replacements give the template with each text put in as the later replacements rewrote it |
| `Rendering.RunnerCarriesPlan` | operator_authoring/adapter_generator.py:194-194 | the runner's module is its template with the plan's text unchanged, for every plan |
| `RenderingTheorems.PlanSurvivesIff` | publish_service/backends/nifi_native.py:319-325 | the native module carries the plan's text unchanged exactly when no string of the plan holds one of the three later markers, or only the class marker and the class has its name |
| `RenderingTheorems.NativeModuleCarriesPlan` | publish_service/backends/nifi_native.py:319-325 | then the whole rendered module is the template with plan, property list, class name and description in it |
| `RenderingTheorems.MarkerFreeIsCarried` | publish_service/backends/nifi_native.py:305-325 | contracts and callables without markers in their strings have plans that are carried |
| `RenderingTheorems.BackendsAgree` | publish_service/backends/nifi_native.py:192-325 | for every contract that compiles and publishes and whose plan is carried, the rendered runner module behind its filters and the rendered native processor agree on content and attributes, or both fail |
| `RenderingTheorems.CallsAreWellFormed` | operator_authoring/compiler.py:84-135 | for every input the rendered runner module, and the rendered native one if the plan is carried, reports an input failure or passes every required parameter and no unknown one |
| `LiteralReading.JsonIsRead` | publish_service/backends/nifi_native.py:306-311 | every string is read back from its JSON by the rules of RFC 8259, whatever follows |
| `LiteralReading.LiteralIsRead` | publish_service/backends/nifi_native.py:321-321 | every text is read back from its repr by Python's rules for literals |
| `JsonText.ValueIsRead` | operator_authoring/adapter_generator.py:188-194 | every JSON value is read back from its text |
| `PlanJson.PlanSays` | operator_authoring/adapter_generator.py:188-194 | the text of a plan is what json.dumps makes of the plan's tree |
| `PlanReading.PlanReadsBack` | operator_authoring/adapter_generator.py:17-17 | what the generators embed for a plan is read back, field by field by name, as that very plan, and the property list as its parameters |
| `PlanReading.TextDecidesPlan` | operator_authoring/adapter_generator.py:187-194 | two plans with one text are one plan |
| `ModulesAgree.CompiledIsPlain` | operator_authoring/compiler.py:100-135 | every compiled plan holds JSON values only, and a default only for an operator parameter |
| `ModulesAgree.ModulesAgree` | publish_service/backends/nifi_native.py:192-325 | for every contract that compiles and publishes and whose plan is carried, the texts of the two modules, read by Python and run on any input, give the same content and attributes, or both fail |
| `ClassNameLeak.ClassNameReplacesMarker` | publish_service/backends/nifi_native.py:323-323 | the class name takes the place of its marker in the strings of the embedded plan |
| `ClassNameLeak.ClassNameLeaks` | publish_service/backends/nifi_native.py:319-325 | the constant `__CLASS_NAME__` of a contract that compiles and publishes reaches the operator unchanged in the runner and as the class name in NiFi |
| `ModulesAgree.ClassNameLeaksForReal` | publish_service/backends/nifi_native.py:319-325 | the same with the modules read by those very rules |
| `ContractMeaning.KwargsIff` | operator_authoring/adapter_generator.py:51-88 | the arguments built from compiled bindings are exactly those the contract's own bindings mean, or one of them fails |
| `ContractMeaning.DecodeUnderstands` | operator_authoring/adapter_generator.py:31-48 | decoding is the meaning of the raw value under the codec, said kind by kind |
| `ContractMeaning.TextMeansItsBytes` | operator_authoring/adapter_generator.py:31-48 | a text means the same as its UTF-8 under every codec: itself, its bytes, or exactly the value its JSON writes |
| `ContractMeaning.PicksIff` | operator_authoring/adapter_generator.py:98-118 | an output value is the result, what its path leads to part by part, or the constant |
| `ContractMeaning.EncodedIff` | operator_authoring/adapter_generator.py:121-134 | the content is the value's bytes, the UTF-8 of its text or of its JSON, by codec |
| `ContractMeaning.FinishIff` | operator_authoring/adapter_generator.py:166-180 | the adapter answers exactly the content and the attributes that the output asks for |
| `ContractMeaning.SplitTargetSpec` | operator_authoring/compiler.py:159-163 | a class target is split at its first colon and nowhere else |
| `ContractMeaning.InvokeIff` | operator_authoring/adapter_generator.py:157-164 | the compiled target calls the selected callable, after constructing its class for an instance method |
| `ContractMeaning.AttributesIff` | operator_authoring/adapter_generator.py:173-175 | the output attributes are exactly the texts of the values their specifications pick |
| `ContractMeaning.CompilationPreservesMeaning` | operator_authoring/adapter_generator.py:145-184 | for every contract that compiles and every input, the generated adapter answers exactly what the contract, read directly, means |
| `ContractMeaning.PathsCompose` | operator_authoring/adapter_generator.py:98-107 | following a path is following its parts one after the other |
| `ContractMeaning.PayloadRoundTrip` | operator_authoring/adapter_generator.py:31-48 | a payload that goes in and out under one codec is unchanged, JSON up to layout |
| `ResultCodec.Base64RoundTrip` | runner_engine/state.py:99-113 | base64 decoding inverts encoding for byte strings of every length |
| `ResultCodec.StoredResultReadsBack` | runner_engine/state.py:95-120 | a stored result reads back unchanged |
| `ResultCodec.AlphabetSpec` | runner_engine/state.py:99-113 | the alphabet is that of table 1 of RFC 4648, both ways |
| `ResultCodec.VectorsHold` | runner_engine/state.py:99-99 | the test vectors of section 10 of RFC 4648 |
| `ResultCodec.ForeignIsSkipped` | runner_engine/state.py:113-113 | characters outside the alphabet are read over |
| `ResultCodec.StoredFields` | runner_engine/state.py:95-106 | the names of the stored object and what stands under them |
| `ResultCodec.MissingFields` | runner_engine/state.py:109-120 | everything but the status may be missing, with these defaults |
| `SourceIdentity.ParseInvertsStream` | runner_engine/publisher.py:44-51 | the hashed byte stream can be read back into its list of paths and digests |
| `SourceIdentity.StreamDecides` | operator_authoring/ast_scanner.py:73-82 | two lists with the same stream are the same list |
| `SourceIdentity.RevisionDecides` | operator_authoring/ast_scanner.py:73-82 | equal revisions mean equal paths and contents, unless two of the strings actually hashed collide |
| `SourceIdentity.SourceHash` | runner_engine/publisher.py:44-51 | the update loop hashes exactly that stream |
| `Archive.NameLeadsBack` | runner_engine/worker/materialize.py:50-54 | the name a file gets in the archive leads back to its path |
| `Archive.PartsOfSpec` | runner_engine/worker/materialize.py:50-54 | slashes separate the parts of a name, empty parts and dots are nothing, anything else is itself |
| `Archive.Stage` | runner_engine/worker/materialize.py:38-79 | the installing loop computes the specified tree or the first error |
| `Archive.ReleaseMaterializer.Install` | runner_engine/worker/materialize.py:24-85 | an installed release is never touched again, a failed install leaves no target, and success adds exactly the staged tree |
| `ArchiveTheorems.AdvanceAllSpec` | runner_engine/worker/materialize.py:43-75 | the loop accepts an archive exactly when it is within both limits, safe, free of duplicates and of files where directories must be, in any order; staging then holds exactly its files and their directories |
| `ArchiveTheorems.InstallSpec` | runner_engine/worker/materialize.py:38-85 | install succeeds exactly for such an archive with a manifest, and writes only strictly inside staging |
| `ArchiveTheorems.RefusalsAreJustified` | runner_engine/worker/materialize.py:43-79 | whatever error installing reports is a fact about the archive |
| `ArchiveTheorems.PackedInOrder` | runner_engine/publisher.py:54-79 | an archive lists the files in the order of their names, each with its bytes, and the manifest last |
| `ArchiveTheorems.PackThenInstall` | runner_engine/publisher.py:54-79 | packing then installing gives the source files plus the manifest, exactly when both limits hold and the source leaves `operator.json` free |
| `PublishStore.PublishDB.SaveVirtualContract` | publish_service/store.py:40-116 | every row afterwards: the operator updated or added, the version found by digest or inserted one above the highest; a refused insert undoes everything, and variants and jobs stay |
| `PublishStore.PublishDB.UpsertVariant` | publish_service/store.py:162-205 | the row found or made holds the content; it keeps its contract, its key and PUBLISHED, a new one is COMPILED, and no other row changes |
| `PublishStore.PublishDB.CreatePublishJob` | publish_service/store.py:207-217 | one new PENDING job for an existing variant, nothing else |
| `PublishStore.PublishDB.MarkJobRunning` | publish_service/store.py:219-228 | only that job changes, to RUNNING |
| `PublishStore.PublishDB.MarkJobReady` | publish_service/store.py:230-256 | the job is READY and the variant PUBLISHED with this artifact, nothing else changes |
| `PublishStore.PublishDB.MarkJobFailed` | publish_service/store.py:258-277 | the job is FAILED with this message; the variant keeps PUBLISHED and is FAILED otherwise, nothing else changes |
| `PublishTheorems.StepKeeps` | publish_service/service.py:286-362 | every step of every save, compile and publish keeps the tables consistent and only ever adds |
| `PublishTheorems.VersionsAreDense` | publish_service/store.py:77-116 | the versions of an operator are exactly 1..n, one row each, with distinct digests |
| `PublishTheorems.ResavingAddsNothing` | publish_service/store.py:77-87 | over any schedule, saving a contract again, its bindings in any order, finds the same version and adds nothing |
| `PublishTheorems.ReloadedDigest` | publish_service/service.py:272-284 | the digest of a reloaded contract is the one it was saved under exactly when the store changed nothing but the order of its bindings |
| `PublishTheorems.ReloadedPlan` | publish_service/service.py:272-284 | a stored contract always compiles again, to the plan of the save up to defaults equal under `==`, and to exactly that plan if settled |
| `PublishTheorems.VariantIsDerived` | publish_service/service.py:286-323 | in every reachable state a variant is what the compilers make of its reloaded contract and the options in its key |
| `PublishTheorems.PublishedAsSaved` | publish_service/service.py:286-323 | for settled contracts, that is what the contract compiled to when it was saved |
| `PublishContents.RunnerVariantLists` | publish_service/backends/runner.py:38-62 | in every reachable state a runner variant lists as inputs exactly the attributes its contract's bindings read, as outputs exactly those its output writes, both in order, and as parameters exactly those its bindings define |
| `PublishContents.NativeVariantLists` | publish_service/backends/nifi_native.py:58-80 | a native variant lists exactly those parameters as properties, and the requirements of its source |
| `PublishContents.StoredListsServe` | runner_engine/service.py:158-216 | serving a release with the lists of its stored variant computes, for every input, what the adapter computes without filters |
| `PublishContents.ContentsOf` | publish_service/backends/runner.py:26-62 | where a variant comes from, under which key it is filed and every field it holds |
| `PublishContents.CompilesLatest` | publish_service/service.py:286-309 | a compile call compiles the contract of the highest version under the given options, with defaults for what is missing |
| `PublishContents.FilesCompiled` | publish_service/service.py:310-344 | the variant under the compiled key then holds the compiled content; a call that only compiles is through, one that publishes goes on with that variant |
| `PublishTheorems.PublishedIffReady` | publish_service/store.py:230-277 | a variant is PUBLISHED exactly when it has a READY job, and shows such a job's artifact |
| `PublishContents.OutcomesStay` | publish_service/store.py:230-277 | a job that succeeded or failed is READY with its artifact or FAILED with its message, for good, and its variant shows it |
| `PublishTheorems.PublishedForever` | publish_service/store.py:176-193 | over any schedule, failures and recompilations of the reloaded contract never take PUBLISHED away or change a variant's backend contract |

## Left out

- Lease checks, access lists, size limits on content and attributes: `invoke` starts at an arbitrary admitted request, so refusals before the claim are one outcome.
- Request fingerprints are opaque: requests with the same fingerprint are the same request (runner_engine/service.py:45-57).
- RunnerTheorems.CancelStaysInTenant: does not say that cancel hits only its own run's worker, because it may not: the active entry outlives the return of the worker to the pool (runner_engine/service.py:254, 300-315). `RunnerCancel` has the exact condition and a reachable state.
- RunnerDisposal.FinishedThreadSettles: workers that a stale loop drops when a destroy raises are dropped for good, as in the source (runner_engine/pool.py:97-98, 178-179); their tokens stay taken.
- The creation semaphore of the quota only delays creation; a thread waiting for it is a thread that has not taken its next step.
- Sandbox lifetime renewal is a backend call that returns or raises.
- `reset_after_restart` happens only in a restart, where all in-memory state is fresh; on a running process it would drop idle workers without returning their tokens.
- All clocks are one non-decreasing clock; a clock read may lag behind the transaction that uses it. New identifiers are unused ones.
- The legacy run migration, schema creation, lease renewal and deletion, the gateway, the HTTP services and clients, the worker agent's processes, `uv` and `docker`: plumbing and foreign commands. Build and verify succeed or fail arbitrarily.
- Contract names, Python paths and parameter keys are taken as the validators leave them; source scanning, scoring and binding suggestions are not modelled.
- The worker child's normalisation of what `process` returns (runner_engine/worker/child.py:25-88) stands between adapter and service and is not modelled.
- PublishTheorems.ReloadedDigest: what JSONB does to a contract is a parameter. A float it prints without a fraction, from 1e16 on, comes back as an int; then more than order has changed, and by this lemma the digest differs.
- Contracts.Seen: negative zero, infinities and NaN are not among the numbers.
- RenderingTheorems.BackendsAgree: compares the backends on a given parameter map, because property defaults reach the native adapter as strings (publish_service/backends/nifi_native.py:239-247); operators are functions of their arguments, and which of two failures is reported is not compared. `ModulesAgree` has the same with the modules' literals read by Python's own rules.
- Rendering.Template: the fixed text around the markers is abstracted to fragments that hold no marker and end in no marker character, and the modules' code to the two adapters.
- PlanText.Form: how finite numbers and digests are written is a parameter that its reading inverts (`PlanReading.Lawful`), and so is which characters beyond ASCII Python prints as they are; lone surrogates, NaN and infinities are not modelled.
- JsonText.ReadValue: reads what json.dumps writes with these separators; white space between tokens does not occur.
- ClassNameLeak.ClassNameLeaks: shows the class marker only. The other two put a quoted literal inside the plan's literal; by RenderingTheorems.PlanSurvivesIff the plan's text is then changed, and what Python makes of it is not modelled.
- ResultCodec.ResultFromDict: a stored field of the wrong JSON type is an error here, where Python would coerce some of them; no writer produces one.
- Default class and package names of native processors are functions of the operator name and the digest.
- Ignored source directories, symlink refusal and the compressed-size limit of the publisher; tar, gzip and JSON as bytes.
- Archive.ReleaseMaterializer.Install: two processes installing one release at a time are not modelled.
- Hashes of contracts, locks and variant options are injective; only source revisions are treated with an arbitrary hash.
- README.md and some tests of the repository describe an older SQLite interface; the code decides.
