/**
 * The executor as the loop it is (crates/agentverify-runtime/src/executor.rs): one run, its
 * attempts counted and its state machine advanced in place, on a store that others may change
 * meanwhile. Each stage is proved to do what the step machine does, so the whole is a run of that machine.
 */
module ExecutorLoop {
  import opened Common
  import opened Verdicts
  import opened Contracts
  import opened Idempotency
  import opened Executor
  import opened ExecutorPhases
  import opened Backoff
  import opened Runs
  import opened DrivenRuns
  import opened RunClaims
  import I = Interleavings
  import L = Lifecycle

  /** Advance the lifecycle, or leave the run with an error. */
  method AdvanceOrAbort(
    machine: L.StateMachine, next: L.State, policy: ClaimPolicy, error: ExecutorError)
    returns (exit: Option<Exit>)
    modifies machine
    ensures match L.Transition(old(machine.state), next)
            case Ok(s) => exit == None && machine.state == s
            case Err(_) => exit == Some(AbortRun(policy, error, true)) && machine.state == old(machine.state)
  {
    var advanced := machine.Advance(next);
    exit := if advanced.Ok? then None else Some(AbortRun(policy, error, true));
  }

  /** What the loop keeps in its variables is what the step machine keeps in its run. */
  ghost predicate Agrees(machine: L.StateMachine, attempts: nat, details: seq<Detail>, r: Run)
    reads machine
  {
    machine.state == r.life && attempts == r.attempts && details == r.details
  }

  /** Check the postconditions and decide. */
  method Verify(
    spec: RunSpec, machine: L.StateMachine, o: Observation, attempts: nat, details: seq<Detail>, ghost r: Run)
    returns (phase: Phase, evidence: seq<Detail>)
    requires Agrees(machine, attempts, details, r)
    modifies machine
    ensures var q := Conclude(spec, r, o, Check(spec, o)); phase == q.phase && evidence == q.details
  {
    hide L.Transition;
    var policy := PostPolicy(spec);
    var exit := AdvanceOrAbort(machine, L.Verifying, policy, VerificationFailed);
    if exit.Some? {
      return Settling(exit.value), details;
    }
    var evaluation := EvaluatePostconditions(spec.lib, spec.contract, o.state, spec.args);
    if evaluation.Err? {
      return Settling(AbortRun(policy, VerificationFailed, false)), details;
    }
    evidence := evaluation.value.details;
    match evaluation.value.result
    case Verified =>
      exit := AdvanceOrAbort(machine, L.Verified, policy, VerificationFailed);
      if exit.Some? {
        return Settling(exit.value), evidence;
      }
      exit := AdvanceOrAbort(machine, L.Committed, policy, VerificationFailed);
      phase := Settling(if exit.Some? then exit.value else Finish(Verified, Some(o)));
    case Failed =>
      if spec.verifyBeforeRetry && Retries(spec, attempts) {
        return Sleeping, evidence;
      }
      exit := AdvanceOrAbort(machine, L.VerificationFailed, policy, VerificationFailed);
      phase := Settling(if exit.Some? then exit.value else Finish(Failed, None));
    case Unknown =>
      phase := if Retries(spec, attempts) then Sleeping else Settling(Finish(Unknown, None));
    case _ =>
      phase := Settling(Finish(evaluation.value.result, None));
  }

  /** Observe the system of record, then verify. */
  method Observe(
    spec: RunSpec, world: World, machine: L.StateMachine, attempts: nat, details: seq<Detail>, ghost r: Run)
    returns (phase: Phase, evidence: seq<Detail>)
    requires Agrees(machine, attempts, details, r)
    modifies machine
    ensures var q := Observed(spec, world, BeginObserving(spec, r, Blind(spec)));
            phase == q.phase && evidence == q.details
  {
    hide L.Transition;
    var exit := AdvanceOrAbort(machine, L.Observing, PostPolicy(spec), UnknownResult);
    if exit.Some? {
      return Settling(exit.value), details;
    }
    ghost var begun := r.(life := machine.state);
    if !spec.observer {
      phase, evidence := Verify(spec, machine, NO_OBSERVATION, attempts, details, begun);
      return;
    }
    match world.after(attempts)
    case Sighted(o) =>
      ghost var seen := begun.(phase := Observing, log := begun.log + [Seen(attempts, o)]);
      phase, evidence := Verify(spec, machine, o, attempts, details, seen);
    case ObserverFailed(e) =>
      var unknown := spec.dispatches && e.UnknownResult?;
      var left := if unknown then Finish(Unknown, None) else AbortRun(PostPolicy(spec), e, false);
      return Settling(left), details;
    case ObserverTimedOut =>
      return Settling(AbortRun(PostPolicy(spec), Timeout, false)), details;
  }

  /** Dispatch the action, then observe. */
  method DispatchAction(
    spec: RunSpec, world: World, machine: L.StateMachine, attempts: nat, details: seq<Detail>, ghost r: Run)
    returns (phase: Phase, evidence: seq<Detail>)
    requires Agrees(machine, attempts, details, r)
    modifies machine
    ensures var q := Observed(spec, world, SentAndAnswered(spec, world, r));
            phase == q.phase && evidence == q.details
  {
    hide L.Transition;
    var answer := world.dispatch(attempts);
    ghost var sent := Send(r);
    sent := sent.(log := sent.log + [Replied(attempts, answer)]);
    if answer.Fault? {
      return Settling(AbortRun(ClaimPolicyFor(answer.fault), ActionExecutor, false)), details;
    }
    var exit: Option<Exit>;
    match answer.outcome {
    case Finished => exit := AdvanceOrAbort(machine, L.Executed, ConsumeUnknown, ExecutionFailed);
    case Accepted => exit := AdvanceOrAbort(machine, L.Executed, ConsumeUnknown, ExecutionFailed);
    case TimeoutBeforeDispatch => exit := AdvanceOrAbort(machine, L.Unknown, ConsumeUnknown, Timeout);
    case TimeoutAfterDispatch => exit := AdvanceOrAbort(machine, L.Unknown, ConsumeUnknown, Timeout);
    case TransportError(_) => return Settling(Finish(Unknown, None)), details;
    case Ambiguous(_) => return Settling(Finish(Unknown, None)), details;
    }
    if exit.Some? {
      return Settling(exit.value), details;
    }
    phase, evidence := Observe(spec, world, machine, attempts, details, sent.(life := machine.state));
  }

  /** The preconditions hold: authorize, and dispatch or simulate the dispatch. */
  method Proceed(
    spec: RunSpec, world: World, machine: L.StateMachine, attempts: nat, details: seq<Detail>, ghost r: Run)
    returns (phase: Phase, evidence: seq<Detail>)
    requires Agrees(machine, attempts, details, r)
    modifies machine
    ensures var q := DispatchedToo(spec, world, Authorize(spec, r, Blind(spec)));
            phase == q.phase && evidence == q.details
  {
    hide L.Transition;
    var exit := AdvanceOrAbort(machine, L.Authorized, ReleaseClaim, ExecutionFailed);
    if exit.Some? {
      return Settling(exit.value), details;
    }
    exit := AdvanceOrAbort(machine, L.Executing, ReleaseClaim, ExecutionFailed);
    if exit.Some? {
      return Settling(exit.value), details;
    }
    if spec.dispatches {
      phase, evidence := DispatchAction(spec, world, machine, attempts, details,
        r.(life := machine.state, phase := Sending));
    } else {
      exit := AdvanceOrAbort(machine, L.Unknown, ReleaseClaim, UnknownResult);
      if exit.Some? {
        return Settling(exit.value), details;
      }
      ConcludingPhases(spec, r.(life := machine.state));
      phase, evidence := Observe(spec, world, machine, attempts, details, r.(life := machine.state));
    }
  }

  lemma ConcludingPhases(spec: RunSpec, r: Run)
    ensures !BeginObserving(spec, r, Blind(spec)).phase.Sending?
  {
  }

  method RejectAction(machine: L.StateMachine, ghost r: Run) returns (phase: Phase)
    requires machine.state == r.life
    modifies machine
    ensures phase == Reject(r).phase && Reject(r).details == r.details
  {
    hide L.Transition;
    var exit := AdvanceOrAbort(machine, L.Rejected, ReleaseClaim, PreconditionFailed);
    phase := Settling(if exit.Some? then exit.value else Finish(Failed, None));
  }

  /** Check the preconditions on what is there before the dispatch. */
  method ObserveFirst(
    spec: RunSpec, world: World, machine: L.StateMachine, attempts: nat, details: seq<Detail>, ghost r: Run)
    returns (phase: Phase, evidence: seq<Detail>)
    requires Agrees(machine, attempts, details, r)
    modifies machine
    ensures var q := DispatchedToo(spec, world, PreSight(spec, r, world.before(attempts)));
            phase == q.phase && evidence == q.details
  {
    hide L.Transition;
    evidence := details;
    var sighting := world.before(attempts);
    if !sighting.Sighted? {
      phase := RejectAction(machine, r);
      return;
    }
    ghost var seen := r.(log := r.log + [PreSeen(attempts, sighting.observation)]);
    var pre := CheckAllPreconditions(spec.lib, spec.contract, Some(sighting.observation.state), spec.args);
    if pre.Err? {
      phase := RejectAction(machine, seen);
      return;
    }
    phase, evidence := Proceed(spec, world, machine, attempts, details, seen);
  }

  /** A whole attempt by the way it begins. */
  lemma AttemptStages(spec: RunSpec, world: World, r: Run)
    ensures var begun := r.(attempts := r.attempts + 1, life := L.Proposed);
            Attempted(spec, world, r) ==
            match L.Transition(L.Proposed, L.Validating)
            case Err(_) => Refused(begun, ReleaseClaim, PreconditionFailed)
            case Ok(s) =>
              if spec.contract.preconditions == [] then
                DispatchedToo(spec, world, Authorize(spec, begun.(life := s), Blind(spec)))
              else if spec.observer then
                DispatchedToo(spec, world,
                  PreSight(spec, begun.(life := s, phase := PreObserving), world.before(begun.attempts)))
              else Reject(begun.(life := s))
  {
    hide L.Transition, Authorize, DispatchedToo, PreSight;
    var begun := r.(attempts := r.attempts + 1, life := L.Validating);
    AdvancesAreLegal();
    if spec.contract.preconditions == [] {
      AuthorizeErased(spec, begun, Blind(spec));
    } else if !spec.observer {
      RejectErased(begun);
      LeavingStays(spec, world, Reject(begun));
    }
  }

  lemma LeavingStays(spec: RunSpec, world: World, r: Run)
    requires r.phase.Settling?
    ensures DispatchedToo(spec, world, r) == r
  {
  }

  /** One turn of the loop. */
  method Attempt(spec: RunSpec, world: World, attempts: nat, details: seq<Detail>, ghost r: Run)
    returns (phase: Phase, evidence: seq<Detail>)
    requires attempts == r.attempts + 1 && details == r.details
    ensures var q := Attempted(spec, world, r); phase == q.phase && evidence == q.details
  {
    hide L.Transition;
    AttemptStages(spec, world, r);
    var machine := new L.StateMachine();
    var exit := AdvanceOrAbort(machine, L.Validating, ReleaseClaim, PreconditionFailed);
    if exit.Some? {
      return Settling(exit.value), details;
    }
    ghost var begun := r.(attempts := attempts, life := machine.state);
    if spec.contract.preconditions == [] {
      phase, evidence := Proceed(spec, world, machine, attempts, details, begun);
      return;
    }
    if spec.observer {
      phase, evidence := ObserveFirst(spec, world, machine, attempts, details, begun.(phase := PreObserving));
    } else {
      evidence := details;
      phase := RejectAction(machine, begun);
    }
  }

  /** Resolve the claim of a run that leaves its loop, and reply. */
  method Resolve(
    registry: IdempotencyRegistry, spec: RunSpec, exit: Exit, attempts: nat, details: seq<Detail>, ghost r: Run)
    returns (reply: Reply)
    requires attempts == r.attempts && details == r.details
    modifies registry
    ensures var m := FromSettling(spec, r, exit, old(registry.entries));
            m.run.phase == Phase.Done(reply) && m.run.slept == r.slept && registry.entries == m.store
  {
    if spec.key.Some? {
      match exit
      case AbortRun(ReleaseClaim, _, _) => registry.ReleaseKey(spec.key.value);
      case AbortRun(ConsumeUnknown, _, _) => registry.CompleteKey(spec.key.value, Unknown);
      case Finish(v, _) => registry.CompleteKey(spec.key.value, v);
    }
    match exit
    case Finish(v, o) => reply := Returned(v, Receipt(v, attempts, spec.key, o, details));
    case AbortRun(_, e, _) => reply := Raised(e);
  }

  /** Make attempts until one leaves; the claim, if there is a key, is held. */
  method Loop(registry: IdempotencyRegistry, spec: RunSpec, world: World, ghost start: Run)
    returns (reply: Reply, slept: nat)
    requires start.attempts == 0 && start.slept == 0 && start.details == [] && start.holds == spec.key.Some?
    requires Shape(spec, BeginAttempt(spec, start, Blind(spec)))
    modifies registry
    ensures var m := Drive(spec, world, BeginAttempt(spec, start, Blind(spec)), old(registry.entries));
            m.run.phase == Phase.Done(reply) && m.run.slept == slept && registry.entries == m.store
  {
    hide BeginAttempt, Attempted, Drive, Shape, FromSettling;
    slept := 0;
    var attempts, details: seq<Detail>, exit: Option<Exit> := 0, [], None;
    ghost var r := start;
    ghost var goal := Drive(spec, world, BeginAttempt(spec, start, Blind(spec)), registry.entries);
    while exit.None?
      invariant attempts == r.attempts && details == r.details && slept == r.slept
                && registry.entries == old(registry.entries)
      invariant exit.None? ==>
                  && r.holds == spec.key.Some?
                  && (attempts >= 1 ==>
                       attempts < AttemptLimit(spec) && spec.verifyBeforeRetry && Retries(spec, attempts))
                  && Shape(spec, BeginAttempt(spec, r, Blind(spec)))
                  && Drive(spec, world, BeginAttempt(spec, r, Blind(spec)), registry.entries) == goal
      invariant exit.Some? ==>
                  && r.phase == Settling(exit.value) && Shape(spec, r)
                  && Drive(spec, world, r, registry.entries) == goal
      decreases exit.None?, AttemptLimit(spec) - attempts
    {
      var phase: Phase;
      AttemptDrives(spec, world, r, registry.entries);
      phase, details := Attempt(spec, world, attempts + 1, details, r);
      attempts := attempts + 1;
      ghost var q := Attempted(spec, world, r);
      r := q;
      if phase.Settling? {
        exit := Some(phase.exit);
      } else {
        SleepDrives(spec, world, r, registry.entries);
        slept := slept + ExecutorDelay(attempts, spec.contract.recovery);
        r := Wake(spec, r);
      }
    }
    LeaveDrives(spec, world, r, registry.entries);
    registry.entries := world.whileRunning(registry.entries);
    reply := Resolve(registry, spec, exit.value, attempts, details, r);
  }

  /** A reply that made no attempt: the stored verdict, or that the key is in flight. */
  function WithoutAttempt(spec: RunSpec, existing: Option<Verdict>): Reply {
    var v := match existing case Some(cached) => cached case None => Duplicate;
    Returned(v, Receipt(v, 0, spec.key, None, []))
  }

  /**
   * A whole execution, simulated or real: claim the key, make attempts, resolve the claim. It returns
   * what the step machine returns, whatever others do to the store before each of its calls on it, and leaves
   * the same store; it has slept between its attempts as long as that machine.
   */
  method Execute(registry: IdempotencyRegistry, spec: RunSpec, world: World) returns (reply: Reply, slept: nat)
    modifies registry
    ensures var m := Drive(spec, world, FRESH, old(registry.entries));
            m.run.phase == Phase.Done(reply) && m.run.slept == slept && registry.entries == m.store
  {
    FreshDrives(spec, world, registry.entries);
    if spec.key.None? {
      reply, slept := Loop(registry, spec, world, FRESH);
      return;
    }
    var result, existing := registry.ClaimOrCheckKey(spec.key.value);
    if result.Claimed? {
      reply, slept := Loop(registry, spec, world, ClaimedBy(spec.key.value));
      return;
    }
    if existing.None? && spec.dispatches {
      registry.entries := world.whilePolling(registry.entries);
      result, existing := registry.ClaimOrCheckKey(spec.key.value);
    }
    return WithoutAttempt(spec, existing), 0;
  }

  /** Nobody else is on the store. */
  ghost predicate Undisturbed(world: World) {
    forall store :: world.whilePolling(store) == store && world.whileRunning(store) == store
  }

  /** A driven run is one of the interleavings, that of a single run: whatever holds of every schedule holds of it. */
  lemma {:induction false} DrivingIsPlaying(
    spec: RunSpec, world: World, schedule: seq<I.Turn>)
    returns (longer: seq<I.Turn>)
    requires Shape(spec, I.Play([spec], schedule).runs[0]) && Undisturbed(world)
    ensures schedule <= longer
    ensures var s, t := I.Play([spec], schedule), I.Play([spec], longer);
            Moved(t.runs[0], t.store) == Drive(spec, world, s.runs[0], s.store)
    decreases Rank(spec, I.Play([spec], schedule).runs[0])
  {
    var s := I.Play([spec], schedule);
    var input := InputFor(world, s.runs[0]);
    longer := schedule + [I.Turn(0, input)];
    I.PlayOne([spec], schedule, I.Turn(0, input));
    MoveKeepsShape(spec, s.runs[0], s.store, input);
    MoveLowersRank(spec, s.runs[0], s.store, input);
    if Move(spec, s.runs[0], s.store, input).run != s.runs[0] {
      longer := DrivingIsPlaying(spec, world, longer);
    }
  }
}
