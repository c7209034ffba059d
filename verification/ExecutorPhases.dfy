/**
 * The executor with its lifecycle erased: where each move leads, computed without consulting the
 * state machine. Proving the two equal proves that no transition is ever refused.
 */
module ExecutorPhases {
  import opened Common
  import opened Verdicts
  import opened Predicates
  import opened Contracts
  import opened Executor
  import L = Lifecycle

  /** The lifecycle state in which each kind of wait finds the run; no exit was taken on a refusal. */
  predicate LifeOk(r: Run) {
    match r.phase
    case Start => true
    case Polling => true
    case PreObserving => r.life == L.Validating
    case Sending => r.life == L.Executing
    case Dispatching => r.life == L.Executing
    case Observing => r.life == L.Observing
    case Sleeping => r.life == L.Verifying
    case Settling(exit) => exit.AbortRun? ==> !exit.byLifecycle
    case Done(_) => true
    case Cancelled => true
  }

  lemma AdvancesAreLegal()
    ensures L.Transition(L.Proposed, L.Validating) == Ok(L.Validating)
    ensures L.Transition(L.Validating, L.Rejected) == Ok(L.Rejected)
    ensures L.Transition(L.Validating, L.Authorized) == Ok(L.Authorized)
    ensures L.Transition(L.Authorized, L.Executing) == Ok(L.Executing)
    ensures L.Transition(L.Executing, L.Executed) == Ok(L.Executed)
    ensures L.Transition(L.Executing, L.Unknown) == Ok(L.Unknown)
    ensures L.Transition(L.Executed, L.Observing) == Ok(L.Observing)
    ensures L.Transition(L.Unknown, L.Observing) == Ok(L.Observing)
    ensures L.Transition(L.Observing, L.Verifying) == Ok(L.Verifying)
    ensures L.Transition(L.Verifying, L.Verified) == Ok(L.Verified)
    ensures L.Transition(L.Verified, L.Committed) == Ok(L.Committed)
    ensures L.Transition(L.Verifying, L.VerificationFailed) == Ok(L.VerificationFailed)
  {
  }

  /** Everything but the phase, the lifecycle and the evidence is as before. */
  predicate Framed(q: Run, r: Run) {
    q.attempts == r.attempts && q.slept == r.slept && q.holds == r.holds && q.log == r.log
  }

  function ConcludedPhase(spec: RunSpec, attempts: nat, o: Observation, ev: Result<Evaluation, RegexError>): Phase {
    match ev
    case Err(_) => Settling(AbortRun(PostPolicy(spec), VerificationFailed, false))
    case Ok(e) =>
      if e.result.Verified? then Settling(Finish(Verified, Some(o)))
      else if e.result.Failed? && spec.verifyBeforeRetry && Retries(spec, attempts) then Sleeping
      else if e.result.Unknown? && Retries(spec, attempts) then Sleeping
      else Settling(Finish(e.result, None))
  }

  function ObservingPhase(spec: RunSpec, attempts: nat, blind: Result<Evaluation, RegexError>): Phase {
    if spec.observer then Observing else ConcludedPhase(spec, attempts, NO_OBSERVATION, blind)
  }

  function AuthorizedPhase(spec: RunSpec, attempts: nat, blind: Result<Evaluation, RegexError>): Phase {
    if spec.dispatches then Sending else ObservingPhase(spec, attempts, blind)
  }

  function AttemptPhase(spec: RunSpec, attempts: nat, blind: Result<Evaluation, RegexError>): Phase {
    if spec.contract.preconditions == [] then AuthorizedPhase(spec, attempts, blind)
    else if spec.observer then PreObserving
    else Settling(Finish(Failed, None))
  }

  function DispatchedPhase(spec: RunSpec, attempts: nat, a: Answer, blind: Result<Evaluation, RegexError>): Phase {
    match a
    case Fault(f) => Settling(AbortRun(ClaimPolicyFor(f), ActionExecutor, false))
    case Outcome(o) =>
      if o.TransportError? || o.Ambiguous? then Settling(Finish(Unknown, None))
      else ObservingPhase(spec, attempts, blind)
  }

  function SightedPhase(spec: RunSpec, attempts: nat, a: Sighting, ev: Result<Evaluation, RegexError>): Phase {
    match a
    case Sighted(o) => ConcludedPhase(spec, attempts, o, ev)
    case ObserverFailed(e) =>
      if spec.dispatches && e.UnknownResult? then Settling(Finish(Unknown, None))
      else Settling(AbortRun(PostPolicy(spec), e, false))
    case ObserverTimedOut => Settling(AbortRun(PostPolicy(spec), Timeout, false))
  }

  /** What the postconditions of the current attempt were last checked on. */
  function LastObservation(spec: RunSpec, r: Run): Option<Observation> {
    if !spec.observer then Some(NO_OBSERVATION)
    else if r.log != [] && r.log[|r.log| - 1].Seen? && r.log[|r.log| - 1].attempt == r.attempts then
      Some(r.log[|r.log| - 1].observation)
    else None
  }

  /** A run that leaves with `Verified` or `Partial` does so on the check `ev` of the observation `o`. */
  predicate Backed(q: Run, o: Observation, ev: Result<Evaluation, RegexError>) {
    q.phase.Settling? && q.phase.exit.Finish? && (q.phase.exit.result.Verified? || q.phase.exit.result.Partial?) ==>
      && ev == Ok(Evaluation(q.phase.exit.result, q.details))
      && (q.phase.exit.result.Verified? ==> q.phase.exit.observation == Some(o))
  }

  /** No verdict was reached: the run left without one, or is still waiting. */
  predicate Undecided(q: Run) {
    q.phase.Settling? && q.phase.exit.Finish? ==> !q.phase.exit.result.Verified? && !q.phase.exit.result.Partial?
  }

  predicate BlindlyBacked(spec: RunSpec, q: Run, blind: Result<Evaluation, RegexError>) {
    if spec.observer then Undecided(q) else Backed(q, NO_OBSERVATION, blind)
  }

  lemma ConcludeErased(spec: RunSpec, r: Run, o: Observation, ev: Result<Evaluation, RegexError>)
    requires r.life == L.Observing
    ensures var q := Conclude(spec, r, o, ev);
            && LifeOk(q) && Framed(q, r) && Backed(q, o, ev)
            && q.phase == ConcludedPhase(spec, r.attempts, o, ev)
  {
    hide L.Transition;
    AdvancesAreLegal();
  }

  lemma BeginObservingErased(spec: RunSpec, r: Run, blind: Result<Evaluation, RegexError>)
    requires r.life == L.Executed || r.life == L.Unknown
    ensures var q := BeginObserving(spec, r, blind);
            && LifeOk(q) && Framed(q, r) && BlindlyBacked(spec, q, blind)
            && q.phase == ObservingPhase(spec, r.attempts, blind)
  {
    hide L.Transition;
    AdvancesAreLegal();
    if !spec.observer {
      ConcludeErased(spec, r.(life := L.Observing), NO_OBSERVATION, blind);
    }
  }

  lemma AuthorizeErased(spec: RunSpec, r: Run, blind: Result<Evaluation, RegexError>)
    requires r.life == L.Validating
    ensures var q := Authorize(spec, r, blind);
            && LifeOk(q) && Framed(q, r) && BlindlyBacked(spec, q, blind)
            && q.phase == AuthorizedPhase(spec, r.attempts, blind)
  {
    hide L.Transition;
    AdvancesAreLegal();
    if !spec.dispatches {
      BeginObservingErased(spec, r.(life := L.Unknown), blind);
    }
  }

  lemma BeginAttemptErased(spec: RunSpec, r: Run, blind: Result<Evaluation, RegexError>)
    ensures var q := BeginAttempt(spec, r, blind);
            && LifeOk(q) && Framed(q, r.(attempts := r.attempts + 1)) && BlindlyBacked(spec, q, blind)
            && q.phase == AttemptPhase(spec, r.attempts + 1, blind)
  {
    hide L.Transition, Authorize;
    AdvancesAreLegal();
    var begun := r.(attempts := r.attempts + 1, life := L.Validating);
    if spec.contract.preconditions == [] {
      assert BeginAttempt(spec, r, blind) == Authorize(spec, begun, blind);
      AuthorizeErased(spec, begun, blind);
    } else if !spec.observer {
      RejectErased(begun);
    }
  }

  lemma RejectErased(r: Run)
    requires r.life == L.Validating
    ensures Reject(r) == Leave(r.(life := L.Rejected), Finish(Failed, None))
  {
    hide L.Transition;
    AdvancesAreLegal();
  }

  lemma AfterPreObservingErased(spec: RunSpec, r: Run, a: Sighting, pre: Result<(), PreconditionError>,
                                blind: Result<Evaluation, RegexError>)
    requires r.life == L.Validating
    ensures var q := AfterPreObserving(spec, r, a, pre, blind);
            var seen := if a.Sighted? then r.(log := r.log + [PreSeen(r.attempts, a.observation)]) else r;
            && LifeOk(q) && Framed(q, seen) && BlindlyBacked(spec, q, blind)
            && q.phase == (if a.Sighted? && pre.Ok? then AuthorizedPhase(spec, r.attempts, blind)
                           else Settling(Finish(Failed, None)))
  {
    hide L.Transition;
    AdvancesAreLegal();
    if a.Sighted? {
      AuthorizeErased(spec, r.(log := r.log + [PreSeen(r.attempts, a.observation)]), blind);
    }
  }

  lemma AfterDispatchingErased(spec: RunSpec, r: Run, a: Answer, blind: Result<Evaluation, RegexError>)
    requires r.life == L.Executing
    ensures var q := AfterDispatching(spec, r, a, blind);
            && LifeOk(q) && Framed(q, r.(log := r.log + [Replied(r.attempts, a)])) && BlindlyBacked(spec, q, blind)
            && q.phase == DispatchedPhase(spec, r.attempts, a, blind)
  {
    hide L.Transition;
    AdvancesAreLegal();
    var s := r.(log := r.log + [Replied(r.attempts, a)]);
    if a.Outcome? && !a.outcome.TransportError? && !a.outcome.Ambiguous? {
      var next := if a.outcome.Finished? || a.outcome.Accepted? then L.Executed else L.Unknown;
      BeginObservingErased(spec, s.(life := next), blind);
    }
  }

  lemma AfterObservingErased(spec: RunSpec, r: Run, a: Sighting, ev: Result<Evaluation, RegexError>)
    requires r.life == L.Observing
    ensures var q := AfterObserving(spec, r, a, ev);
            var seen := if a.Sighted? then r.(log := r.log + [Seen(r.attempts, a.observation)]) else r;
            && LifeOk(q) && Framed(q, seen)
            && (if a.Sighted? then Backed(q, a.observation, ev) else Undecided(q))
            && q.phase == SightedPhase(spec, r.attempts, a, ev)
  {
    if a.Sighted? {
      ConcludeErased(spec, r.(log := r.log + [Seen(r.attempts, a.observation)]), a.observation, ev);
    }
  }
}
