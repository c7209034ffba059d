/**
 * How each answer of an observer or an adapter ends an execution: its reply and what is left in the store
 * (crates/agentverify-runtime/src/executor.rs).
 */
module ExecutorOutcomes {
  import opened Common
  import opened Verdicts
  import opened Predicates
  import opened Contracts
  import opened Idempotency
  import opened Executor
  import opened ExecutorPhases
  import opened Interleavings
  import opened ExecutorTheorems
  import opened KeySchedules
  import opened RetryLaws

  /** The key of a run, if it has one, is completed with a verdict, or gone when there is none. */
  predicate KeyLeft(spec: RunSpec, store: Store, verdict: Option<Verdict>) {
    spec.key.Some? ==>
      if verdict.Some? then spec.key.value in store && store[spec.key.value] == Completed(verdict.value)
      else spec.key.value !in store
  }

  /** The next turn of the run raises an error, its key left completed or gone. */
  ghost predicate EndsRaised(
    specs: seq<RunSpec>, schedule: seq<Turn>, i: nat, error: ExecutorError, verdict: Option<Verdict>)
    requires i < |specs|
  {
    var t := Play(specs, schedule + [Turn(i, Tick)]);
    t.runs[i].phase == Done(Raised(error)) && KeyLeft(specs[i], t.store, verdict)
  }

  /** The next turn of the run returns a verdict, which its key is completed with. */
  ghost predicate EndsReturned(
    specs: seq<RunSpec>, schedule: seq<Turn>, i: nat, v: Verdict, observation: Option<Observation>)
    requires i < |specs|
  {
    var r, t := After(specs, schedule, i), Play(specs, schedule + [Turn(i, Tick)]);
    && t.runs[i].phase == Done(Returned(v, Receipt(v, r.attempts, specs[i].key, observation, r.details)))
    && KeyLeft(specs[i], t.store, Some(v))
  }

  lemma AbortEnds(specs: seq<RunSpec>, schedule: seq<Turn>, i: nat, policy: ClaimPolicy, error: ExecutorError)
    requires i < |specs| && After(specs, schedule, i).phase == Settling(AbortRun(policy, error, false))
    ensures EndsRaised(specs, schedule, i, error, if policy == ReleaseClaim then None else Some(Unknown))
  {
    Solo(specs, schedule, i, Tick);
    hide Play;
  }

  lemma FinishEnds(specs: seq<RunSpec>, schedule: seq<Turn>, i: nat, v: Verdict, observation: Option<Observation>)
    requires i < |specs| && After(specs, schedule, i).phase == Settling(Finish(v, observation))
    ensures EndsReturned(specs, schedule, i, v, observation)
  {
    Solo(specs, schedule, i, Tick);
    hide Play;
  }

  /** The verdict a run that could not be checked leaves: none if it only simulated the dispatch. */
  function LeftBehind(spec: RunSpec): Option<Verdict> {
    if spec.dispatches then Some(Unknown) else None
  }

  /** Every postcondition can be evaluated on a state. */
  ghost predicate Evaluable(spec: RunSpec, o: Observation) {
    forall c :: 0 <= c < |spec.contract.postconditions| ==>
      Eval(spec.lib, spec.contract.postconditions[c].condition, o.state, spec.args).Ok?
  }

  lemma CheckSays(spec: RunSpec, o: Observation)
    ensures Check(spec, o).Ok? <==> Evaluable(spec, o)
    ensures Evaluable(spec, o) ==>
              var posts := spec.contract.postconditions;
              Check(spec, o).value.result ==
              if NoneFails(spec.lib, posts, o.state, spec.args) then Verified
              else if MandatoryFails(spec.lib, posts, o.state, spec.args) then Failed
              else Partial
  {
    hide Accumulate, NoneFails, MandatoryFails, Eval;
    PostconditionsAnswer(spec.lib, spec.contract.postconditions, o.state, spec.args, true, false, []);
    PostconditionVerdict(spec.lib, spec.contract, o.state, spec.args);
  }

  /**
   * An attempt whose postconditions are checked on an observation ends the run with an error if one of them
   * cannot be evaluated, with `Verified` and the observation if none fails, and with `Partial` if only optional
   * ones fail; if a mandatory one fails it is tried again or ends with `Failed`.
   */
  ghost predicate EndsChecked(specs: seq<RunSpec>, schedule: seq<Turn>, i: nat, o: Observation)
    requires i < |specs|
  {
    var spec, r := specs[i], After(specs, schedule, i);
    var posts := spec.contract.postconditions;
    if !Evaluable(spec, o) then EndsRaised(specs, schedule, i, VerificationFailed, LeftBehind(spec))
    else if NoneFails(spec.lib, posts, o.state, spec.args) then EndsReturned(specs, schedule, i, Verified, Some(o))
    else if !MandatoryFails(spec.lib, posts, o.state, spec.args) then EndsReturned(specs, schedule, i, Partial, None)
    else if spec.verifyBeforeRetry && r.attempts < ConfiguredAttempts(spec) then r.phase == Sleeping
    else EndsReturned(specs, schedule, i, Failed, None)
  }

  lemma CheckEnds(specs: seq<RunSpec>, schedule: seq<Turn>, i: nat, o: Observation)
    requires i < |specs| && After(specs, schedule, i).attempts >= 1
    requires After(specs, schedule, i).phase ==
             ConcludedPhase(specs[i], After(specs, schedule, i).attempts, o, Check(specs[i], o))
    ensures EndsChecked(specs, schedule, i, o)
  {
    hide Check, Play, NoneFails, MandatoryFails, Evaluable, EndsRaised, EndsReturned;
    var spec, r := specs[i], After(specs, schedule, i);
    CheckSays(spec, o);
    match r.phase
    case Settling(AbortRun(policy, error, _)) => AbortEnds(specs, schedule, i, policy, error);
    case Settling(Finish(v, observation)) => FinishEnds(specs, schedule, i, v, observation);
    case _ =>
  }

  /** The three faults that say nothing reached the target. */
  predicate NothingSent(a: Answer) {
    match a
    case Fault(ActionNotSupported(_)) => true
    case Fault(TimedOutBeforeDispatch) => true
    case Fault(Rejected(_)) => true
    case _ => false
  }

  /**
   * What an adapter's answer leads to. Any fault is raised; the key is released if nothing was sent, and is
   * completed as `Unknown` otherwise. A transport error or an ambiguous outcome is returned as `Unknown`.
   * Everything else, timeouts among it, is checked: on an observation, or on an empty document.
   */
  lemma AdapterAnswerEnds(specs: seq<RunSpec>, schedule: seq<Turn>, i: nat, a: Answer)
    requires i < |specs| && After(specs, schedule, i).phase.Dispatching?
    ensures var spec, next := specs[i], schedule + [Turn(i, AdapterReply(a))];
            if a.Fault? then EndsRaised(specs, next, i, ActionExecutor, if NothingSent(a) then None else Some(Unknown))
            else if a.outcome.TransportError? || a.outcome.Ambiguous? then EndsReturned(specs, next, i, Unknown, None)
            else if spec.observer then After(specs, next, i).phase == Observing
            else EndsChecked(specs, next, i, NO_OBSERVATION)
  {
    hide AfterDispatching, Play, Check, EndsRaised, EndsReturned, EndsChecked;
    var spec, r, next := specs[i], After(specs, schedule, i), schedule + [Turn(i, AdapterReply(a))];
    Solo(specs, schedule, i, AdapterReply(a));
    AfterDispatchingErased(spec, r, a, Blind(spec));
    if a.Fault? {
      AbortEnds(specs, next, i, ClaimPolicyFor(a.fault), ActionExecutor);
    } else if a.outcome.TransportError? || a.outcome.Ambiguous? {
      FinishEnds(specs, next, i, Unknown, None);
    } else if !spec.observer {
      CheckEnds(specs, next, i, NO_OBSERVATION);
    }
  }

  /**
   * What an observer's answer leads to. An observer that times out or fails raises that error, except that a
   * dispatching run returns an observer's own `UnknownResult` as its verdict.
   */
  lemma ObserverAnswerEnds(specs: seq<RunSpec>, schedule: seq<Turn>, i: nat, a: Sighting)
    requires i < |specs| && After(specs, schedule, i).phase.Observing?
    ensures var spec, next := specs[i], schedule + [Turn(i, ObserverReply(a))];
            match a
            case Sighted(o) => EndsChecked(specs, next, i, o)
            case ObserverTimedOut => EndsRaised(specs, next, i, Timeout, LeftBehind(spec))
            case ObserverFailed(e) =>
              if spec.dispatches && e == UnknownResult then EndsReturned(specs, next, i, Unknown, None)
              else EndsRaised(specs, next, i, e, LeftBehind(spec))
  {
    hide AfterObserving, Play, Check, EndsRaised, EndsReturned, EndsChecked;
    var spec, r, next := specs[i], After(specs, schedule, i), schedule + [Turn(i, ObserverReply(a))];
    Solo(specs, schedule, i, ObserverReply(a));
    AfterObservingErased(spec, r, a, SightCheck(spec, a));
    if a.Sighted? {
      CheckEnds(specs, next, i, a.observation);
    } else if spec.dispatches && a.ObserverFailed? && a.error.UnknownResult? {
      FinishEnds(specs, next, i, Unknown, None);
    } else {
      AbortEnds(specs, next, i, PostPolicy(spec), if a.ObserverFailed? then a.error else Timeout);
    }
  }

  /** Every precondition verifies on a state. */
  ghost predicate Satisfied(spec: RunSpec, o: Observation) {
    forall c :: 0 <= c < |spec.contract.preconditions| ==>
      Verifies(spec.lib, spec.contract.preconditions[c].condition, o.state, spec.args)
  }

  /**
   * An attempt goes on exactly when all preconditions verify on what was observed first; if not, or if nothing
   * was observed, it is returned as `Failed`, and nothing was sent in it.
   */
  lemma PreObservationEnds(specs: seq<RunSpec>, schedule: seq<Turn>, i: nat, a: Sighting)
    requires i < |specs| && After(specs, schedule, i).phase.PreObserving?
    ensures var spec, next := specs[i], schedule + [Turn(i, ObserverReply(a))];
            if a.Sighted? && Satisfied(spec, a.observation) then
              After(specs, next, i).phase == if spec.dispatches then Sending else Observing
            else EndsReturned(specs, next, i, Failed, None)
  {
    hide AfterPreObserving, Play, CheckPreconditions, EndsReturned, Blind;
    var spec, r, next := specs[i], After(specs, schedule, i), schedule + [Turn(i, ObserverReply(a))];
    Solo(specs, schedule, i, ObserverReply(a));
    AfterPreObservingErased(spec, r, a, PreSightCheck(spec, a), Blind(spec));
    if a.Sighted? {
      PreconditionsAllVerify(spec.lib, spec.contract.preconditions, a.observation.state, spec.args);
    }
    if !a.Sighted? || !Satisfied(spec, a.observation) {
      FinishEnds(specs, next, i, Failed, None);
    }
  }

  /**
   * Where an attempt begins: past its preconditions if it has none, with an observation if it can be made,
   * and with `Failed` otherwise.
   */
  lemma AttemptBegins(specs: seq<RunSpec>, schedule: seq<Turn>, i: nat)
    requires i < |specs|
    requires var s := Play(specs, schedule); Ready(specs[i], s.runs[i], s.store)
    ensures var spec, next := specs[i], schedule + [Turn(i, Tick)];
            if spec.contract.preconditions != [] then
              if spec.observer then After(specs, next, i).phase == PreObserving
              else EndsReturned(specs, next, i, Failed, None)
            else if spec.dispatches then After(specs, next, i).phase == Sending
            else if spec.observer then After(specs, next, i).phase == Observing
            else EndsChecked(specs, next, i, NO_OBSERVATION)
  {
    hide Play, Check, EndsReturned, EndsChecked, Move;
    var spec, s, next := specs[i], Play(specs, schedule), schedule + [Turn(i, Tick)];
    Solo(specs, schedule, i, Tick);
    TickBegins(spec, s.runs[i], s.store);
    if !spec.observer && spec.contract.preconditions != [] {
      FinishEnds(specs, next, i, Failed, None);
    } else if !spec.observer && !spec.dispatches {
      CheckEnds(specs, next, i, NO_OBSERVATION);
    }
  }
}
