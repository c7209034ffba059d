/**
 * One verified execution as a machine that stops wherever the source awaits
 * (crates/agentverify-runtime/src/executor.rs). Observers and adapters answer arbitrarily, a run
 * may be cancelled at any await, and each call on the idempotency store is one atomic step.
 */
module Executor {
  import opened Common
  import opened Json
  import opened Verdicts
  import opened Predicates
  import opened Contracts
  import opened Idempotency
  import opened Backoff
  import L = Lifecycle

  datatype DispatchError =
    | ActionNotSupported(why: string)
    | TransportFault(why: string)
    | TimedOutBeforeDispatch
    | TimedOutAfterDispatch
    | Rejected(why: string)
    | AmbiguousFault(why: string)

  datatype DispatchOutcome =
    | Accepted
    | Finished
    | TimeoutBeforeDispatch
    | TimeoutAfterDispatch
    | TransportError(why: string)
    | Ambiguous(why: string)

  /** What an adapter answers to one dispatch. */
  datatype Answer = Outcome(outcome: DispatchOutcome) | Fault(fault: DispatchError)

  datatype ExecutorError =
    | ContractNotFound | PreconditionFailed | ExecutionFailed | VerificationFailed | Timeout
    | UnknownResult | IdempotencyConflict | RetryExhausted | ActionExecutor

  /** What an observer answers; the last case is the verification timeout. */
  datatype Sighting = Sighted(observation: Observation) | ObserverFailed(error: ExecutorError) | ObserverTimedOut

  datatype ClaimPolicy = ReleaseClaim | ConsumeUnknown

  datatype Receipt = Receipt(
    result: Verdict,
    attempts: nat,
    key: Option<string>,
    observation: Option<Observation>,
    details: seq<Detail>
  )

  datatype Reply = Returned(result: Verdict, receipt: Receipt) | Raised(error: ExecutorError)

  /** How a run leaves its loop. `byLifecycle` marks the exits taken because a transition was refused. */
  datatype Exit =
    | Finish(result: Verdict, observation: Option<Observation>)
    | AbortRun(policy: ClaimPolicy, error: ExecutorError, byLifecycle: bool)

  /** Where a run is suspended. A run that is `Dispatching` has called its adapter and awaits the answer. */
  datatype Phase =
    | Start
    | Polling
    | PreObserving
    | Sending
    | Dispatching
    | Observing
    | Sleeping
    | Settling(exit: Exit)
    | Done(reply: Reply)
    | Cancelled

  /**
   * What a run did, in the order it did it. `Sent` is the call of the adapter, `Replied` its answer,
   * which a cancelled run never hears.
   */
  datatype Event =
    | ClaimedKey(key: string)
    | StrayClaim(key: string)
    | CompletedKey(key: string, verdict: Verdict)
    | ReleasedKey(key: string)
    | PreSeen(attempt: nat, observation: Observation)
    | Sent(attempt: nat)
    | Replied(attempt: nat, answer: Answer)
    | Seen(attempt: nat, observation: Observation)

  /**
   * The fixed inputs of a run. `dispatches` distinguishes `execute_with_executor` from `execute`,
   * which only simulates the dispatch.
   */
  datatype RunSpec = RunSpec(
    key: Option<string>,
    dispatches: bool,
    contract: Contract,
    args: Value,
    observer: bool,
    verifyBeforeRetry: bool,
    maxRetries: nat,
    lib: Library
  )

  /**
   * The changing part of a run: `life` is the state machine of the current attempt, `holds` says
   * that this run's claim stands in the store, `slept` is the time it has slept between attempts,
   * `checked` is the attempt whose check gave the details, zero before the first.
   */
  datatype Run = Run(
    phase: Phase,
    life: L.State,
    attempts: nat,
    slept: nat,
    details: seq<Detail>,
    checked: nat,
    holds: bool,
    log: seq<Event>
  )

  const FRESH := Run(Start, L.Proposed, 0, 0, [], 0, false, [])

  /** Without an observer the postconditions are checked on an empty document. */
  const NO_OBSERVATION := Observation("none", Object(map[]))

  /** Only faults that prove nothing was sent release the claim. */
  function ClaimPolicyFor(fault: DispatchError): ClaimPolicy {
    match fault
    case ActionNotSupported(_) => ReleaseClaim
    case TimedOutBeforeDispatch => ReleaseClaim
    case Rejected(_) => ReleaseClaim
    case _ => ConsumeUnknown
  }

  predicate ShouldRetry(attempts: nat, recovery: Option<RecoveryConfig>, defaultMaxRetries: nat) {
    match recovery
    case Some(config) => !config.strategy.NoAction? && attempts < config.maxAttempts
    case None => attempts < defaultMaxRetries
  }

  predicate Retries(spec: RunSpec, attempts: nat) {
    ShouldRetry(attempts, spec.contract.recovery, spec.maxRetries)
  }

  /** The abort policy once a dispatch may have happened; a simulated run never dispatches. */
  function PostPolicy(spec: RunSpec): ClaimPolicy {
    if spec.dispatches then ConsumeUnknown else ReleaseClaim
  }

  function Check(spec: RunSpec, o: Observation): Result<Evaluation, RegexError> {
    VerifyPostconditions(spec.lib, spec.contract, o.state, spec.args)
  }

  /** The check a run without an observer makes. */
  function Blind(spec: RunSpec): Result<Evaluation, RegexError> {
    Check(spec, NO_OBSERVATION)
  }

  function PreCheck(spec: RunSpec, o: Observation): Result<(), PreconditionError> {
    ValidatePreconditions(spec.lib, spec.contract, Some(o.state), spec.args)
  }

  function Leave(r: Run, exit: Exit): Run {
    r.(phase := Settling(exit))
  }

  function Refused(r: Run, policy: ClaimPolicy, error: ExecutorError): Run {
    Leave(r, AbortRun(policy, error, true))
  }

  /**
   * The top of the loop, up to the first await of an attempt. `blind` is the check a run without
   * an observer makes on the empty document.
   */
  function BeginAttempt(spec: RunSpec, r: Run, blind: Result<Evaluation, RegexError>): Run {
    var r := r.(attempts := r.attempts + 1, life := L.Proposed);
    match L.Transition(r.life, L.Validating)
    case Err(_) => Refused(r, ReleaseClaim, PreconditionFailed)
    case Ok(s) =>
      var r := r.(life := s);
      if spec.contract.preconditions == [] then Authorize(spec, r, blind)
      else if spec.observer then r.(phase := PreObserving)
      else Reject(r)
  }

  /** Preconditions that do not hold, or cannot be checked, end the run before any dispatch. */
  function Reject(r: Run): Run {
    match L.Transition(r.life, L.Rejected)
    case Err(_) => Refused(r, ReleaseClaim, PreconditionFailed)
    case Ok(s) => Leave(r.(life := s), Finish(Failed, None))
  }

  function AfterPreObserving(spec: RunSpec, r: Run, a: Sighting, pre: Result<(), PreconditionError>,
                             blind: Result<Evaluation, RegexError>): Run
  {
    match a
    case Sighted(o) =>
      var r := r.(log := r.log + [PreSeen(r.attempts, o)]);
      if pre.Ok? then Authorize(spec, r, blind) else Reject(r)
    case _ => Reject(r)
  }

  function Authorize(spec: RunSpec, r: Run, blind: Result<Evaluation, RegexError>): Run {
    match L.Transition(r.life, L.Authorized)
    case Err(_) => Refused(r, ReleaseClaim, ExecutionFailed)
    case Ok(s) =>
      match L.Transition(s, L.Executing)
      case Err(_) => Refused(r.(life := s), ReleaseClaim, ExecutionFailed)
      case Ok(t) =>
        if spec.dispatches then r.(life := t, phase := Sending)
        else
          match L.Transition(t, L.Unknown)
          case Err(_) => Refused(r.(life := t), ReleaseClaim, UnknownResult)
          case Ok(u) => BeginObserving(spec, r.(life := u), blind)
  }

  /** The adapter is called; from here on the action may take effect. */
  function Send(r: Run): Run {
    r.(phase := Dispatching, log := r.log + [Sent(r.attempts)])
  }

  function AfterDispatching(spec: RunSpec, r: Run, a: Answer, blind: Result<Evaluation, RegexError>): Run {
    var r := r.(log := r.log + [Replied(r.attempts, a)]);
    match a
    case Fault(f) => Leave(r, AbortRun(ClaimPolicyFor(f), ActionExecutor, false))
    case Outcome(Finished) => Dispatch(spec, r, L.Executed, ExecutionFailed, blind)
    case Outcome(Accepted) => Dispatch(spec, r, L.Executed, ExecutionFailed, blind)
    case Outcome(TimeoutBeforeDispatch) => Dispatch(spec, r, L.Unknown, Timeout, blind)
    case Outcome(TimeoutAfterDispatch) => Dispatch(spec, r, L.Unknown, Timeout, blind)
    case Outcome(_) => Leave(r, Finish(Unknown, None))
  }

  function Dispatch(
    spec: RunSpec, r: Run, next: L.State, error: ExecutorError, blind: Result<Evaluation, RegexError>): Run
  {
    match L.Transition(r.life, next)
    case Err(_) => Refused(r, ConsumeUnknown, error)
    case Ok(s) => BeginObserving(spec, r.(life := s), blind)
  }

  function BeginObserving(spec: RunSpec, r: Run, blind: Result<Evaluation, RegexError>): Run {
    match L.Transition(r.life, L.Observing)
    case Err(_) => Refused(r, PostPolicy(spec), UnknownResult)
    case Ok(s) =>
      var r := r.(life := s);
      if spec.observer then r.(phase := Observing)
      else Conclude(spec, r, NO_OBSERVATION, blind)
  }

  /** Only the real path turns an observer's own `Unknown` into a verdict. */
  function AfterObserving(spec: RunSpec, r: Run, a: Sighting, ev: Result<Evaluation, RegexError>): Run {
    match a
    case Sighted(o) => Conclude(spec, r.(log := r.log + [Seen(r.attempts, o)]), o, ev)
    case ObserverFailed(e) =>
      if spec.dispatches && e.UnknownResult? then Leave(r, Finish(Unknown, None))
      else Leave(r, AbortRun(PostPolicy(spec), e, false))
    case ObserverTimedOut => Leave(r, AbortRun(PostPolicy(spec), Timeout, false))
  }

  /** The verdict on an observation: finish, or wait for another attempt. */
  function Conclude(spec: RunSpec, r: Run, o: Observation, ev: Result<Evaluation, RegexError>): Run {
    match L.Transition(r.life, L.Verifying)
    case Err(_) => Refused(r, PostPolicy(spec), VerificationFailed)
    case Ok(s) =>
      match ev
      case Err(_) => Leave(r.(life := s), AbortRun(PostPolicy(spec), VerificationFailed, false))
      case Ok(e) =>
        var r := r.(life := s, details := e.details, checked := r.attempts);
        match e.result
        case Verified => Commit(spec, r, o)
        case Failed =>
          if spec.verifyBeforeRetry && Retries(spec, r.attempts) then r.(phase := Sleeping)
          else FailVerification(spec, r)
        case Unknown =>
          if Retries(spec, r.attempts) then r.(phase := Sleeping)
          else Leave(r, Finish(Unknown, None))
        case _ => Leave(r, Finish(e.result, None))
  }

  /** How long a sleeping run waits before its next attempt. */
  function SleepTime(spec: RunSpec, r: Run): nat
    requires r.attempts >= 1
  {
    ExecutorDelay(r.attempts, spec.contract.recovery)
  }

  /** How much of its sleep a move adds to what a run has slept. */
  function SleepOf(spec: RunSpec, r: Run, input: Input): nat {
    if !r.phase.Sleeping? || r.attempts == 0 then 0
    else
      match input
      case Tick => SleepTime(spec, r)
      case Cancel(asleep) => Min(asleep, SleepTime(spec, r))
      case _ => 0
  }

  function Wake(spec: RunSpec, r: Run): Run
    requires r.attempts >= 1
  {
    r.(slept := r.slept + SleepTime(spec, r))
  }

  function Commit(spec: RunSpec, r: Run, o: Observation): Run {
    match L.Transition(r.life, L.Verified)
    case Err(_) => Refused(r, PostPolicy(spec), VerificationFailed)
    case Ok(s) =>
      match L.Transition(s, L.Committed)
      case Err(_) => Refused(r.(life := s), PostPolicy(spec), VerificationFailed)
      case Ok(t) => Leave(r.(life := t), Finish(Verified, Some(o)))
  }

  function FailVerification(spec: RunSpec, r: Run): Run {
    match L.Transition(r.life, L.VerificationFailed)
    case Err(_) => Refused(r, PostPolicy(spec), VerificationFailed)
    case Ok(s) => Leave(r.(life := s), Finish(Failed, None))
  }

  /** A reply that made no attempt: a cached verdict, or `Duplicate`. */
  function Answered(spec: RunSpec, r: Run, v: Verdict): Run {
    r.(phase := Done(Returned(v, Receipt(v, 0, spec.key, None, []))))
  }

  function ReplyOf(spec: RunSpec, r: Run, exit: Exit): Reply {
    match exit
    case Finish(v, o) => Returned(v, Receipt(v, r.attempts, spec.key, o, r.details))
    case AbortRun(_, e, _) => Raised(e)
  }

  /** What reaches a suspended run. A run cancelled in its sleep has slept for a while. */
  datatype Input = Tick | ObserverReply(sighting: Sighting) | AdapterReply(answer: Answer) | Cancel(asleep: nat)

  datatype Moved = Moved(run: Run, store: Store)

  function FromStart(spec: RunSpec, r: Run, store: Store): Moved {
    match spec.key
    case None => Moved(BeginAttempt(spec, r, Blind(spec)), store)
    case Some(k) =>
      var c := ClaimOrCheck(store, k);
      if c.result.Claimed? then
        Moved(BeginAttempt(spec, r.(holds := true, log := r.log + [ClaimedKey(k)]), Blind(spec)), c.after)
      else if c.existing.Some? then Moved(Answered(spec, r, c.existing.value), store)
      else if spec.dispatches then Moved(r.(phase := Polling), store)
      else Moved(Answered(spec, r, Duplicate), store)
  }

  /**
   * The second look after 50 ms ignores whether it claimed the key: when the first holder has
   * released it meanwhile, this call claims it and still answers `Duplicate`.
   */
  function FromPolling(spec: RunSpec, r: Run, store: Store): Moved
    requires spec.key.Some?
  {
    var k := spec.key.value;
    var c := ClaimOrCheck(store, k);
    if c.existing.Some? then Moved(Answered(spec, r, c.existing.value), c.after)
    else if c.result.Claimed? then
      Moved(Answered(spec, r.(holds := true, log := r.log + [StrayClaim(k)]), Duplicate), c.after)
    else Moved(Answered(spec, r, Duplicate), c.after)
  }

  /** Resolve the claim, then reply. */
  function FromSettling(spec: RunSpec, r: Run, exit: Exit, store: Store): Moved {
    var done := Done(ReplyOf(spec, r, exit));
    match spec.key
    case None => Moved(r.(phase := done), store)
    case Some(k) =>
      match exit
      case AbortRun(ReleaseClaim, _, _) =>
        Moved(r.(phase := done, holds := false, log := r.log + [ReleasedKey(k)]), Release(store, k))
      case AbortRun(ConsumeUnknown, _, _) =>
        Moved(r.(phase := done, holds := false, log := r.log + [CompletedKey(k, Unknown)]), Complete(store, k, Unknown))
      case Finish(v, _) =>
        Moved(r.(phase := done, holds := false, log := r.log + [CompletedKey(k, v)]), Complete(store, k, v))
  }

  /** The check of what was sighted; a failed sighting is never checked. */
  function SightCheck(spec: RunSpec, a: Sighting): Result<Evaluation, RegexError> {
    if a.Sighted? then Check(spec, a.observation) else Ok(Evaluation(Unknown, []))
  }

  function PreSightCheck(spec: RunSpec, a: Sighting): Result<(), PreconditionError> {
    if a.Sighted? then PreCheck(spec, a.observation) else Err(MissingPreState)
  }

  function Sight(spec: RunSpec, r: Run, a: Sighting): Run {
    AfterObserving(spec, r, a, SightCheck(spec, a))
  }

  function PreSight(spec: RunSpec, r: Run, a: Sighting): Run {
    AfterPreObserving(spec, r, a, PreSightCheck(spec, a), Blind(spec))
  }

  predicate Waiting(r: Run) {
    !r.phase.Done? && !r.phase.Cancelled?
  }

  /** Is this an input the run is waiting for? */
  predicate Awaits(spec: RunSpec, r: Run, input: Input) {
    match r.phase
    case PreObserving => input.ObserverReply?
    case Observing => input.ObserverReply?
    case Dispatching => input.AdapterReply?
    case Polling => input.Tick? && spec.key.Some?
    case Sleeping => input.Tick? && r.attempts >= 1
    case Done(_) => false
    case Cancelled => false
    case _ => input.Tick?
  }

  function Respond(spec: RunSpec, r: Run, store: Store, input: Input): Moved
    requires Awaits(spec, r, input)
  {
    match r.phase
    case Start => FromStart(spec, r, store)
    case Polling => FromPolling(spec, r, store)
    case PreObserving => Moved(PreSight(spec, r, input.sighting), store)
    case Sending => Moved(Send(r), store)
    case Dispatching => Moved(AfterDispatching(spec, r, input.answer, Blind(spec)), store)
    case Observing => Moved(Sight(spec, r, input.sighting), store)
    case Sleeping => Moved(BeginAttempt(spec, Wake(spec, r), Blind(spec)), store)
    case Settling(exit) => FromSettling(spec, r, exit, store)
  }

  /** One move of a run. An input the run is not waiting for changes nothing. */
  function Move(spec: RunSpec, r: Run, store: Store, input: Input): Moved {
    if input.Cancel? && Waiting(r) then
      Moved(r.(phase := Cancelled, slept := r.slept + SleepOf(spec, r, input)), store)
    else if Awaits(spec, r, input) then Respond(spec, r, store, input)
    else Moved(r, store)
  }
}
