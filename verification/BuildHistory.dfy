/**
 * What the schedule says about the build tables: no environment is READY unless its very image
 * passed verification against its very packages, and a build or a verification that failed
 * leaves environment and job FAILED.
 */
module BuildHistory {
  import opened Prelude
  import opened BuildModel
  import opened BuildStore
  import opened BuildService
  import opened BuildTheorems

  // ---------------------------------------------------------------- every READY image was verified

  /** Step `k` of the schedule was a successful verification of this image for these packages, by thread `t`. */
  ghost predicate VerifiedAt(parse: Parser, steps: seq<Step>, k: int, t: ThreadId, e: EnvId, image: Image,
                             packages: Packages) {
    && 0 <= k < |steps| && steps[k] == Verify(t, true)
    && Exec(parse, IDLE, steps[..k]).Some?
    && var p := Exec(parse, IDLE, steps[..k]).value;
       && t in p.threads && p.threads[t].pc.Checking? && p.threads[t].pc.e == e && p.threads[t].pc.image == image
       && PackagesOf(parse, p.threads[t].pc.spec) == packages
  }

  ghost predicate Vouched(parse: Parser, steps: seq<Step>, e: EnvId, image: Image, packages: Packages) {
    exists k, t :: VerifiedAt(parse, steps, k, t, e, image, packages)
  }

  ghost predicate PassedVouched(parse: Parser, steps: seq<Step>, p: Plant) {
    forall t :: t in p.threads && p.threads[t].pc.Passed? ==>
      var pc := p.threads[t].pc; Vouched(parse, steps, pc.e, pc.image, PackagesOf(parse, pc.spec))
  }

  ghost predicate ReadyVouched(parse: Parser, steps: seq<Step>, p: Plant) {
    forall e :: e in p.store.envs && p.store.envs[e].status.Ready? ==>
      var env := p.store.envs[e]; env.image.Some? && Vouched(parse, steps, e, env.image.value, env.packages)
  }

  lemma VouchedLater(parse: Parser, steps: seq<Step>, step: Step, e: EnvId, image: Image, packages: Packages)
    requires Vouched(parse, steps, e, image, packages)
    ensures Vouched(parse, steps + [step], e, image, packages)
  {
    hide Exec;
    var k, t :| VerifiedAt(parse, steps, k, t, e, image, packages);
    assert (steps + [step])[..k] == steps[..k];
    assert VerifiedAt(parse, steps + [step], k, t, e, image, packages);
  }

  /** The last step of a schedule comes after all the others. */
  lemma {:induction false} ExecLast(parse: Parser, p: Plant, steps: seq<Step>, step: Step)
    ensures var before := Exec(parse, p, steps);
      Exec(parse, p, steps + [step]) == if before.None? then None else Apply(parse, before.value, step)
    decreases |steps|
  {
    hide Apply;
    if steps == [] {
      assert [step][1..] == [];
      assert steps + [step] == [step];
      var next := Apply(parse, p, step);
      if next.Some? { assert Exec(parse, next.value, []) == next; }
    } else {
      assert (steps + [step])[1..] == steps[1..] + [step];
      var next := Apply(parse, p, steps[0]);
      if next.Some? { ExecLast(parse, next.value, steps[1..], step); }
    }
  }

  /** A thread only gets to Passed by a successful verification. */
  lemma NewlyPassed(parse: Parser, p: Plant, step: Step, t: ThreadId)
    requires Apply(parse, p, step).Some? && t in Apply(parse, p, step).value.threads
    requires Apply(parse, p, step).value.threads[t].pc.Passed?
    ensures t in p.threads
    ensures var (pc, pc') := (p.threads[t].pc, Apply(parse, p, step).value.threads[t].pc);
      || pc' == pc
      || (step == Verify(t, true) && pc.Checking? && pc.e == pc'.e && pc.image == pc'.image && pc.spec == pc'.spec)
  {
    hide SmallestSuperset, Wanted, CreateExact, Bind, ResetFailed, ClaimBuild, Mark, ImageTaken, GetForRequest;
  }

  /** An environment only becomes READY with an image that its builder had verified. */
  lemma NewlyReady(parse: Parser, p: Plant, step: Step, e: EnvId)
    requires Inv(parse, p) && Apply(parse, p, step).Some?
    requires e in Apply(parse, p, step).value.store.envs
    requires Apply(parse, p, step).value.store.envs[e].status.Ready?
    ensures var env' := Apply(parse, p, step).value.store.envs[e];
      || (e in p.store.envs && p.store.envs[e] == env')
      || (step.MarkReady? && step.t in p.threads && p.threads[step.t].pc.Passed? && p.threads[step.t].pc.e == e
            && env'.image == Some(p.threads[step.t].pc.image)
            && env'.packages == PackagesOf(parse, p.threads[step.t].pc.spec))
  {
    hide Inv, Wanted, SmallestSuperset, ImageTaken;
    if step.MarkReady? {
      BuildersPackages(parse, p, step.t);
    }
  }

  /** What a thread has verified is what its environment's row lists. */
  lemma BuildersPackages(parse: Parser, p: Plant, t: ThreadId)
    requires Inv(parse, p)
    ensures t in p.threads && p.threads[t].pc.Passed? ==>
      var pc := p.threads[t].pc; pc.e in p.store.envs && p.store.envs[pc.e].packages == PackagesOf(parse, pc.spec)
  {
    hide Wanted, KeyOf, JobsOk, AliasesOk, VerifiedOk;
    if t in p.threads && p.threads[t].pc.Passed? {
      assert ThreadOk(parse, p, t, p.threads[t]);
      assert RowOk(parse, p.store.index, p.threads[t].pc.e, p.store.envs[p.threads[t].pc.e]);
    }
  }

  lemma PassedStaysVouched(parse: Parser, steps: seq<Step>, step: Step, p: Plant)
    requires Exec(parse, IDLE, steps) == Some(p) && PassedVouched(parse, steps, p) && Apply(parse, p, step).Some?
    ensures PassedVouched(parse, steps + [step], Apply(parse, p, step).value)
  {
    hide Exec, Apply, Vouched;
    var p' := Apply(parse, p, step).value;
    forall t | t in p'.threads && p'.threads[t].pc.Passed?
      ensures var pc := p'.threads[t].pc;
        Vouched(parse, steps + [step], pc.e, pc.image, PackagesOf(parse, pc.spec))
    {
      NewlyPassed(parse, p, step, t);
      var pc := p'.threads[t].pc;
      if p.threads[t].pc == pc {
        VouchedLater(parse, steps, step, pc.e, pc.image, PackagesOf(parse, pc.spec));
      } else {
        LastVouches(parse, steps, p, t);
      }
    }
  }

  lemma LastVouches(parse: Parser, steps: seq<Step>, p: Plant, t: ThreadId)
    requires Exec(parse, IDLE, steps) == Some(p) && t in p.threads && p.threads[t].pc.Checking?
    ensures var pc := p.threads[t].pc;
      Vouched(parse, steps + [Verify(t, true)], pc.e, pc.image, PackagesOf(parse, pc.spec))
  {
    hide Exec;
    var all := steps + [Verify(t, true)];
    assert all[..|steps|] == steps;
    var pc := p.threads[t].pc;
    assert VerifiedAt(parse, all, |steps|, t, pc.e, pc.image, PackagesOf(parse, pc.spec));
  }

  lemma ReadyStaysVouched(parse: Parser, steps: seq<Step>, step: Step, p: Plant)
    requires Inv(parse, p) && Apply(parse, p, step).Some?
    requires PassedVouched(parse, steps, p) && ReadyVouched(parse, steps, p)
    ensures ReadyVouched(parse, steps + [step], Apply(parse, p, step).value)
  {
    hide Exec, Apply, Vouched, Inv;
    var p' := Apply(parse, p, step).value;
    forall e | e in p'.store.envs && p'.store.envs[e].status.Ready?
      ensures var env := p'.store.envs[e];
        env.image.Some? && Vouched(parse, steps + [step], e, env.image.value, env.packages)
    {
      NewlyReady(parse, p, step, e);
      var env := p'.store.envs[e];
      VouchedLater(parse, steps, step, e, env.image.value, env.packages);
    }
  }

  lemma {:induction false} RunVouched(parse: Parser, steps: seq<Step>, p: Plant)
    requires Exec(parse, IDLE, steps) == Some(p)
    ensures PassedVouched(parse, steps, p) && ReadyVouched(parse, steps, p)
    decreases |steps|
  {
    if steps != [] {
      hide Exec, Apply, PassedVouched, ReadyVouched, Inv;
      var (before, step) := (steps[..|steps| - 1], steps[|steps| - 1]);
      assert steps == before + [step];
      ExecLast(parse, IDLE, before, step);
      var p0 := Exec(parse, IDLE, before).value;
      RunVouched(parse, before, p0);
      assert Reachable(parse, p0);
      ReachableInv(parse, p0);
      PassedStaysVouched(parse, before, step, p0);
      ReadyStaysVouched(parse, before, step, p0);
    }
  }

  /**
   * For every schedule and every environment that is READY after it: at some point of the
   * schedule a thread checked this very image of this environment for exactly the packages of
   * its row, and the check passed.
   */
  lemma ReadyWasVerified(parse: Parser, steps: seq<Step>, p: Plant, e: EnvId)
    requires Exec(parse, IDLE, steps) == Some(p) && e in p.store.envs && p.store.envs[e].status.Ready?
    ensures p.store.envs[e].image.Some?
    ensures exists k, t ::
      VerifiedAt(parse, steps, k, t, e, p.store.envs[e].image.value, p.store.envs[e].packages)
  {
    hide Exec;
    RunVouched(parse, steps, p);
  }

  /** So was the image of every READY answer. */
  lemma AnswersWereVerified(parse: Parser, steps: seq<Step>, p: Plant, t: ThreadId)
    requires Exec(parse, IDLE, steps) == Some(p) && t in p.threads && p.threads[t].pc.Answered?
    requires p.threads[t].pc.answer.Some? && p.threads[t].pc.answer.value.env.status.Ready?
    ensures var answer := p.threads[t].pc.answer.value;
      answer.env.image.Some? && exists k, u ::
        VerifiedAt(parse, steps, k, u, answer.e, answer.env.image.value, answer.env.packages)
  {
    hide Exec, VerifiedAt;
    assert Reachable(parse, p);
    ReachableInv(parse, p);
    AnswerStands(parse, p, t);
    ReadyWasVerified(parse, steps, p, p.threads[t].pc.answer.value.e);
  }

  lemma AnswerStands(parse: Parser, p: Plant, t: ThreadId)
    requires Inv(parse, p) && t in p.threads && p.threads[t].pc.Answered?
    requires p.threads[t].pc.answer.Some? && p.threads[t].pc.answer.value.env.status.Ready?
    ensures var answer := p.threads[t].pc.answer.value;
      answer.e in p.store.envs && p.store.envs[answer.e] == answer.env
  {
    assert ThreadOk(parse, p, t, p.threads[t]);
    hide StoreOk, Serves;
  }

  // ---------------------------------------------------------------- failures are recorded

  /** A step of some other thread; the process does not die. */
  predicate Elsewhere(step: Step, t: ThreadId) {
    !step.Crash? && step.t != t
  }

  lemma ElsewhereKeeps(parse: Parser, p: Plant, step: Step, t: ThreadId)
    requires Elsewhere(step, t) && t in p.threads && Apply(parse, p, step).Some?
    ensures var p' := Apply(parse, p, step).value; t in p'.threads && p'.threads[t] == p.threads[t]
  {
    hide SmallestSuperset, Wanted, CreateExact, Bind, ResetFailed, ClaimBuild, Mark, ImageTaken, GetForRequest;
  }

  lemma {:induction false} ElsewhereRun(parse: Parser, p: Plant, steps: seq<Step>, t: ThreadId)
    requires t in p.threads && (forall i :: 0 <= i < |steps| ==> Elsewhere(steps[i], t)) && Exec(parse, p, steps).Some?
    ensures var p' := Exec(parse, p, steps).value; t in p'.threads && p'.threads[t] == p.threads[t]
    decreases |steps|
  {
    hide Apply, Elsewhere;
    if steps != [] {
      ElsewhereKeeps(parse, p, steps[0], t);
      ElsewhereRun(parse, Apply(parse, p, steps[0]).value, steps[1..], t);
    }
  }

  /**
   * The backend failed the build or the verification of what it had built, or a store call raised
   * while the build was under way, or the image is another environment's already.
   */
  predicate Fails(p: Plant, step: Step, t: ThreadId) {
    || step == Verify(t, false) || step == Make(t, None)
    || (step == Raise(t) && t in p.threads && UnderWay(p.threads[t].pc))
    || (step == MarkReady(t) && t in p.threads && p.threads[t].pc.Passed? && exists f ::
          f in p.store.envs && f != p.threads[t].pc.e && p.store.envs[f].image == Some(p.threads[t].pc.image))
  }

  predicate UnderWay(pc: Pc) {
    pc.Made? || pc.Checking? || pc.Passed?
  }

  /**
   * After a build failed in any of these ways, whatever other threads do, the thread's only moves
   * are to record the failure or to fail at that; recorded, the environment it was building and
   * its job are FAILED, and the environment has no image.
   */
  lemma FailuresAreRecorded(parse: Parser, p: Plant, t: ThreadId, step: Step, steps: seq<Step>)
    requires Inv(parse, p) && Fails(p, step, t) && Apply(parse, p, step).Some?
    requires forall i :: 0 <= i < |steps| ==> Elsewhere(steps[i], t)
    requires Exec(parse, Apply(parse, p, step).value, steps).Some?
    ensures t in p.threads && (p.threads[t].pc.Making? || UnderWay(p.threads[t].pc))
    ensures var (pc, p') := (p.threads[t].pc, Exec(parse, Apply(parse, p, step).value, steps).value);
      && (forall next :: Apply(parse, p', next).Some? && !next.Crash? && next.t == t ==>
            next == MarkFailed(t) || next == Raise(t))
      && Apply(parse, p', MarkFailed(t)).Some?
      && Recorded(Apply(parse, p', MarkFailed(t)).value.store, pc.e, pc.j)
  {
    hide Inv, Apply, Exec;
    var p1 := Apply(parse, p, step).value;
    FailureNoted(parse, p, t, step);
    StepInv(parse, p, step);
    RunInv(parse, p1, steps);
    ElsewhereRun(parse, p1, steps, t);
    FailureMarked(parse, Exec(parse, p1, steps).value, t);
  }

  predicate Recorded(store: Store, e: EnvId, j: JobId) {
    && e in store.envs && store.envs[e].status == Failed && store.envs[e].image == None
    && j in store.jobs && store.jobs[j] == Job(e, Failed)
  }

  lemma FailureNoted(parse: Parser, p: Plant, t: ThreadId, step: Step)
    requires Fails(p, step, t) && Apply(parse, p, step).Some?
    ensures t in p.threads && (p.threads[t].pc.Making? || UnderWay(p.threads[t].pc))
    ensures var p' := Apply(parse, p, step).value;
      && p'.store == p.store && t in p'.threads
      && p'.threads[t] == p.threads[t].(pc := Failing(p.threads[t].pc.e, p.threads[t].pc.j))
  {
    hide Wanted;
  }

  lemma FailureMarked(parse: Parser, p: Plant, t: ThreadId)
    requires Inv(parse, p) && t in p.threads && p.threads[t].pc.Failing?
    ensures forall next :: Apply(parse, p, next).Some? && !next.Crash? && next.t == t ==>
      next == MarkFailed(t) || next == Raise(t)
    ensures Apply(parse, p, MarkFailed(t)).Some?
    ensures Recorded(Apply(parse, p, MarkFailed(t)).value.store, p.threads[t].pc.e, p.threads[t].pc.j)
  {
    hide Inv, Apply, Recorded;
    forall next | Apply(parse, p, next).Some? && !next.Crash? && next.t == t
      ensures next == MarkFailed(t) || next == Raise(t)
    {
      OnlyRecords(parse, p, t, next);
    }
    FailureOwned(parse, p, t);
    MarkRecords(parse, p, t);
  }

  lemma OnlyRecords(parse: Parser, p: Plant, t: ThreadId, next: Step)
    requires t in p.threads && p.threads[t].pc.Failing? && Apply(parse, p, next).Some? && !next.Crash? && next.t == t
    ensures next == MarkFailed(t) || next == Raise(t)
  {
    hide Wanted, SmallestSuperset, CreateExact, Bind, ResetFailed, ClaimBuild, GetForRequest;
  }

  lemma FailureOwned(parse: Parser, p: Plant, t: ThreadId)
    requires Inv(parse, p) && t in p.threads && p.threads[t].pc.Failing?
    ensures var (e, j) := (p.threads[t].pc.e, p.threads[t].pc.j);
      && e in p.store.envs && p.store.envs[e].image == None && j in p.store.jobs && p.store.jobs[j].env == e
  {
    BuilderOwns(parse, p, t);
    hide ThreadsOk, JobsOk, AliasesOk, VerifiedOk, Wanted, KeyOf;
    assert RowOk(parse, p.store.index, p.threads[t].pc.e, p.store.envs[p.threads[t].pc.e]);
  }

  lemma MarkRecords(parse: Parser, p: Plant, t: ThreadId)
    requires t in p.threads && p.threads[t].pc.Failing?
    requires var (e, j) := (p.threads[t].pc.e, p.threads[t].pc.j);
      && e in p.store.envs && p.store.envs[e].image == None && j in p.store.jobs && p.store.jobs[j].env == e
    ensures Apply(parse, p, MarkFailed(t)).Some?
    ensures Recorded(Apply(parse, p, MarkFailed(t)).value.store, p.threads[t].pc.e, p.threads[t].pc.j)
  {
  }
}
