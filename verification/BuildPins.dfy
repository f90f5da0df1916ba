/** The build service with the parser it uses: what a READY environment holds is what the lock text pins. */
module BuildPins {
  import opened Prelude
  import opened BuildModel
  import opened BuildStore
  import opened BuildService
  import opened BuildTheorems
  import opened LockFile

  predicate Parses(parse: Parser, key: EnvKey) {
    parse(key.lock.text).Some?
  }

  /** Only a parsed request binds an alias, and only a bound request gets an answer. */
  predicate RequestOk(parse: Parser, th: Thread) {
    && (th.Resolve? || th.pc.BindingSuperset? || (th.pc.Answered? && th.pc.answer.Some?) ==>
          Parses(parse, RequestOf(th)))
  }

  ghost predicate RequestsOk(parse: Parser, p: Plant) {
    && (forall t :: t in p.threads ==> RequestOk(parse, p.threads[t]))
    && (forall k :: k in p.store.aliases ==> Parses(parse, k))
  }

  /** The aliases afterwards are those before, and perhaps the moving thread's own request. */
  ghost predicate BindsOwn(p: Plant, p': Plant, t: ThreadId) {
    && t in p'.threads && p'.threads == p.threads[t := p'.threads[t]]
    && forall k :: k in p'.store.aliases ==> k in p.store.aliases || k == RequestOf(p'.threads[t])
  }

  lemma OwnBindingOk(parse: Parser, p: Plant, p': Plant, t: ThreadId)
    requires RequestsOk(parse, p) && BindsOwn(p, p', t) && RequestOk(parse, p'.threads[t])
    requires p'.store.aliases == p.store.aliases || Parses(parse, RequestOf(p'.threads[t]))
    ensures RequestsOk(parse, p')
  {
    hide RequestOk, Parses;
  }

  predicate StartStep(step: Step) {
    step.StartResolve? || step.StartRetry?
  }

  predicate LookupStep(step: Step) {
    step.Look? || step.Search? || step.Reread? || step.RetryLook?
  }

  predicate RowStep(step: Step) {
    step.BindSuperset? || step.Create? || step.BindExact? || step.Claim? || step.ResetEnv?
  }

  lemma StartRequests(parse: Parser, p: Plant, step: Step)
    requires RequestsOk(parse, p) && StartStep(step) && Apply(parse, p, step).Some?
    ensures RequestsOk(parse, Apply(parse, p, step).value)
  {
    hide RequestsOk;
    OwnBindingOk(parse, p, Apply(parse, p, step).value, step.t);
  }

  lemma LookupRequests(parse: Parser, p: Plant, step: Step)
    requires RequestsOk(parse, p) && LookupStep(step) && Apply(parse, p, step).Some?
    ensures RequestsOk(parse, Apply(parse, p, step).value)
  {
    hide SmallestSuperset, Wanted, Parses;
    assert RequestOk(parse, p.threads[step.t]);
    OwnBindingOk(parse, p, Apply(parse, p, step).value, step.t);
  }

  lemma RowRequests(parse: Parser, p: Plant, step: Step)
    requires RequestsOk(parse, p) && RowStep(step) && Apply(parse, p, step).Some?
    ensures RequestsOk(parse, Apply(parse, p, step).value)
  {
    hide Wanted, Parses;
    assert RequestOk(parse, p.threads[step.t]);
    OwnBindingOk(parse, p, Apply(parse, p, step).value, step.t);
  }

  lemma BuildRequests(parse: Parser, p: Plant, step: Step)
    requires RequestsOk(parse, p) && !StartStep(step) && !LookupStep(step) && !RowStep(step) && !step.Crash?
    requires Apply(parse, p, step).Some?
    ensures RequestsOk(parse, Apply(parse, p, step).value)
  {
    hide Wanted, Parses, ImageTaken;
    assert RequestOk(parse, p.threads[step.t]);
    OwnBindingOk(parse, p, Apply(parse, p, step).value, step.t);
  }

  lemma StepRequests(parse: Parser, p: Plant, step: Step)
    requires RequestsOk(parse, p) && Apply(parse, p, step).Some?
    ensures RequestsOk(parse, Apply(parse, p, step).value)
  {
    if step.Crash? { return; }
    hide Apply, RequestsOk;
    if StartStep(step) { StartRequests(parse, p, step); }
    else if LookupStep(step) { LookupRequests(parse, p, step); }
    else if RowStep(step) { RowRequests(parse, p, step); }
    else { BuildRequests(parse, p, step); }
  }

  lemma {:induction false} RunRequests(parse: Parser, p: Plant, steps: seq<Step>)
    requires RequestsOk(parse, p) && Exec(parse, p, steps).Some?
    ensures RequestsOk(parse, Exec(parse, p, steps).value)
    decreases |steps|
  {
    hide Apply, RequestsOk;
    if steps != [] {
      StepRequests(parse, p, steps[0]);
      RunRequests(parse, Apply(parse, p, steps[0]).value, steps[1..]);
    }
  }

  /** Whoever gets an answer asked with a lock text that parses. */
  lemma AnsweredParses(parse: Parser, p: Plant, t: ThreadId)
    requires Reachable(parse, p) && t in p.threads && p.threads[t].pc.Answered? && p.threads[t].pc.answer.Some?
    ensures Parses(parse, RequestOf(p.threads[t]))
  {
    hide Apply;
    var steps :| Exec(parse, IDLE, steps) == Some(p);
    RunRequests(parse, IDLE, steps);
    assert RequestOk(parse, p.threads[t]);
  }

  /**
   * A READY answer to a lock text holds every package that the text pins, at that version; bound
   * exactly, it holds those packages and no others. The text is well formed.
   */
  lemma PinsAreInstalled(p: Plant, t: ThreadId, name: string, version: string)
    requires Reachable(Locked, p) && t in p.threads && p.threads[t].pc.Answered? && p.threads[t].pc.answer.Some?
    requires p.threads[t].pc.answer.value.env.status.Ready?
    ensures var (text, answer) := (RequestOf(p.threads[t]).lock.text, p.threads[t].pc.answer.value);
      && WellFormed(text)
      && (Requests(text, name, version) ==> Maps(answer.env.packages, name, version))
      && (answer.kind.Exact? ==> (Requests(text, name, version) <==> Maps(answer.env.packages, name, version)))
  {
    hide Reachable, Locked, WellFormed, Requests;
    var text := RequestOf(p.threads[t]).lock.text;
    AnsweredParses(Locked, p, t);
    ReadyAnswersSatisfy(Locked, p, t);
    LockedSpec(text);
    assert Wanted(Locked, RequestOf(p.threads[t])) == Locked(text).value;
  }
}
