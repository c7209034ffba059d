/** What every move of a single run keeps, whatever the store, the observer and the adapter answer. */
module Runs {
  import opened Common
  import opened Verdicts
  import opened Contracts
  import opened Idempotency
  import opened Executor
  import opened ExecutorPhases

  /** The configured maximum, at least one: the loop body runs before the maximum is consulted. */
  function AttemptLimit(spec: RunSpec): (n: nat)
    ensures n >= 1
    ensures forall a: nat :: Retries(spec, a) ==> a < n
  {
    match spec.contract.recovery
    case Some(config) => if config.strategy.NoAction? then 1 else Max(1, config.maxAttempts)
    case None => Max(1, spec.maxRetries)
  }

  /** Can a run make a second attempt at all? */
  predicate MayRetry(spec: RunSpec) {
    spec.verifyBeforeRetry && Retries(spec, 1)
  }

  /** A check whose verdict is `Failed`: the only one that leads to another attempt. */
  predicate FailsOn(spec: RunSpec, o: Observation) {
    Check(spec, o).Ok? && Check(spec, o).value.result.Failed?
  }

  /** Some observation this run could make fails its postconditions. */
  ghost predicate CanFail(spec: RunSpec) {
    if spec.observer then exists o :: FailsOn(spec, o) else FailsOn(spec, NO_OBSERVATION)
  }

  predicate Active(spec: RunSpec, r: Run) {
    && r.attempts >= 1
    && (r.attempts > 1 ==> spec.verifyBeforeRetry && Retries(spec, r.attempts - 1))
    && r.holds == spec.key.Some?
  }

  /** A run settles on `Duplicate` never, and on a release only when nothing was sent. */
  predicate ExitOk(spec: RunSpec, r: Run, exit: Exit) {
    match exit
    case Finish(v, _) => !v.Duplicate?
    case AbortRun(policy, _, byLifecycle) =>
      && !byLifecycle
      && (policy.ReleaseClaim? && spec.dispatches ==> r.log != [] && SafeDispatch(r.log[|r.log| - 1]))
  }

  /** The three adapter answers that prove nothing reached the target. */
  predicate SafeAnswer(a: Answer) {
    a.Fault? && (a.fault.ActionNotSupported? || a.fault.TimedOutBeforeDispatch? || a.fault.Rejected?)
  }

  predicate SafeDispatch(e: Event) {
    e.Replied? && SafeAnswer(e.answer)
  }

  function CachedReply(spec: RunSpec, v: Verdict): Reply {
    Returned(v, Receipt(v, 0, spec.key, None, []))
  }

  /**
   * A run that settles on `Verified` or `Partial` does so on a check of its latest observation, and
   * carries exactly that check's evidence; `Verified` also keeps the observation.
   */
  predicate Evidenced(spec: RunSpec, r: Run) {
    Undecided(r) ||
    (LastObservation(spec, r).Some?
      && Backed(r, LastObservation(spec, r).value, Check(spec, LastObservation(spec, r).value)))
  }

  /** What holds of a run at each of its waits. */
  predicate Shape(spec: RunSpec, r: Run) {
    && LifeOk(r)
    && Evidenced(spec, r)
    && match r.phase
       case Start => r == FRESH
       case Polling => spec.key.Some? && spec.dispatches && r == FRESH.(phase := Polling)
       case PreObserving => Active(spec, r) && spec.observer && spec.contract.preconditions != []
       case Sending => Active(spec, r) && spec.dispatches
       case Dispatching => Active(spec, r) && spec.dispatches && r.log != [] && r.log[|r.log| - 1] == Sent(r.attempts)
       case Observing => Active(spec, r) && spec.observer
       case Sleeping => Active(spec, r) && spec.verifyBeforeRetry && Retries(spec, r.attempts)
       case Settling(exit) => Active(spec, r) && ExitOk(spec, r, exit)
       case Done(reply) =>
         && (r.attempts > 1 ==> spec.verifyBeforeRetry && Retries(spec, r.attempts - 1))
         && (r.holds ==> spec.key.Some? && reply == CachedReply(spec, Duplicate))
       case Cancelled =>
         && (r.attempts > 1 ==> spec.verifyBeforeRetry && Retries(spec, r.attempts - 1))
         && (r.holds ==> spec.key.Some?)
  }

  lemma ConcludedShape(spec: RunSpec, attempts: nat, o: Observation)
    requires attempts >= 1
    ensures var phase := ConcludedPhase(spec, attempts, o, Check(spec, o));
            && (phase.Settling? || phase.Sleeping?)
            && (phase.Sleeping? ==> FailsOn(spec, o) && spec.verifyBeforeRetry && Retries(spec, attempts))
            && (phase.Settling? && phase.exit.Finish? ==> !phase.exit.result.Duplicate? && !phase.exit.result.Unknown?)
            && (phase.Settling? && phase.exit.AbortRun? ==>
                 phase.exit.policy == PostPolicy(spec) && !phase.exit.byLifecycle)
  {
    PostconditionVerdict(spec.lib, spec.contract, o.state, spec.args);
  }

  /** The phase, the evidence and the invariant after a claim or a wait. */
  lemma BeginAttemptShape(spec: RunSpec, r: Run)
    requires r.holds == spec.key.Some?
    requires r.attempts >= 1 ==> spec.verifyBeforeRetry && Retries(spec, r.attempts)
    ensures Shape(spec, BeginAttempt(spec, r, Blind(spec)))
  {
    BeginAttemptErased(spec, r, Blind(spec));
    ConcludedShape(spec, r.attempts + 1, NO_OBSERVATION);
  }

  lemma PreSightShape(spec: RunSpec, r: Run, a: Sighting)
    requires Shape(spec, r) && r.phase.PreObserving?
    ensures Shape(spec, PreSight(spec, r, a))
  {
    AfterPreObservingErased(spec, r, a, PreSightCheck(spec, a), Blind(spec));
  }

  lemma AfterDispatchingShape(spec: RunSpec, r: Run, a: Answer)
    requires Shape(spec, r) && r.phase.Dispatching?
    ensures Shape(spec, AfterDispatching(spec, r, a, Blind(spec)))
  {
    AfterDispatchingErased(spec, r, a, Blind(spec));
    ConcludedShape(spec, r.attempts, NO_OBSERVATION);
  }

  lemma SightShape(spec: RunSpec, r: Run, a: Sighting)
    requires Shape(spec, r) && r.phase.Observing?
    ensures Shape(spec, Sight(spec, r, a))
  {
    AfterObservingErased(spec, r, a, SightCheck(spec, a));
    if a.Sighted? {
      ConcludedShape(spec, r.attempts, a.observation);
    }
  }

  lemma FromStartShape(spec: RunSpec, r: Run, store: Store)
    requires Shape(spec, r) && r.phase.Start?
    ensures Shape(spec, FromStart(spec, r, store).run)
  {
    if spec.key.None? {
      BeginAttemptShape(spec, r);
    } else {
      BeginAttemptShape(spec, r.(holds := true, log := r.log + [ClaimedKey(spec.key.value)]));
    }
  }

  lemma FromSettlingShape(spec: RunSpec, r: Run, store: Store)
    requires Shape(spec, r) && r.phase.Settling?
    ensures Shape(spec, FromSettling(spec, r, r.phase.exit, store).run)
  {
  }

  lemma FromPollingShape(spec: RunSpec, r: Run, store: Store)
    requires Shape(spec, r) && r.phase.Polling?
    ensures Shape(spec, FromPolling(spec, r, store).run)
  {
  }

  lemma CancelShape(spec: RunSpec, r: Run, slept: nat)
    requires Shape(spec, r) && Waiting(r)
    ensures Shape(spec, r.(phase := Cancelled, slept := slept))
  {
  }

  lemma RespondKeepsShape(spec: RunSpec, r: Run, store: Store, input: Input)
    requires Shape(spec, r) && Awaits(spec, r, input)
    ensures Shape(spec, Respond(spec, r, store, input).run)
  {
    match r.phase
    case Start => FromStartShape(spec, r, store);
    case Polling => FromPollingShape(spec, r, store);
    case PreObserving => PreSightShape(spec, r, input.sighting);
    case Sending =>
    case Dispatching => AfterDispatchingShape(spec, r, input.answer);
    case Observing => SightShape(spec, r, input.sighting);
    case Sleeping => BeginAttemptShape(spec, Wake(spec, r));
    case Settling(_) => FromSettlingShape(spec, r, store);
  }

  /** Every move keeps the shape: in particular no lifecycle transition is ever refused. */
  lemma MoveKeepsShape(spec: RunSpec, r: Run, store: Store, input: Input)
    requires Shape(spec, r)
    ensures Shape(spec, Move(spec, r, store, input).run)
  {
    if input.Cancel? && Waiting(r) {
      CancelShape(spec, r, r.slept + SleepOf(spec, r, input));
    } else if Awaits(spec, r, input) {
      RespondKeepsShape(spec, r, store, input);
    }
  }
}
