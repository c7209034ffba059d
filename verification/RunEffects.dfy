/** The observable effect of one move: the events it records, and what it does to the store. */
module RunEffects {
  import opened Common
  import opened Verdicts
  import opened Idempotency
  import opened Executor
  import opened ExecutorPhases
  import opened Runs

  function Resolution(k: string, exit: Exit): Event {
    match exit
    case AbortRun(ReleaseClaim, _, _) => ReleasedKey(k)
    case AbortRun(ConsumeUnknown, _, _) => CompletedKey(k, Unknown)
    case Finish(v, _) => CompletedKey(k, v)
  }

  /** What a move appends to the log: at most one event. */
  function NewEvents(spec: RunSpec, r: Run, store: Store, input: Input): (es: seq<Event>)
    ensures |es| <= 1
  {
    if !Awaits(spec, r, input) then []
    else
      match r.phase
      case Start => if spec.key.Some? && spec.key.value !in store then [ClaimedKey(spec.key.value)] else []
      case Polling => if spec.key.value !in store then [StrayClaim(spec.key.value)] else []
      case PreObserving => if input.sighting.Sighted? then [PreSeen(r.attempts, input.sighting.observation)] else []
      case Sending => [Sent(r.attempts)]
      case Dispatching => [Replied(r.attempts, input.answer)]
      case Observing => if input.sighting.Sighted? then [Seen(r.attempts, input.sighting.observation)] else []
      case Sleeping => []
      case Settling(exit) => if spec.key.Some? then [Resolution(spec.key.value, exit)] else []
  }

  /** Does this move start an attempt? */
  predicate Begins(spec: RunSpec, r: Run, store: Store, input: Input) {
    Awaits(spec, r, input) &&
    (r.phase.Sleeping? || (r.phase.Start? && (spec.key.None? || spec.key.value !in store)))
  }

  /** The part of a run that a move changes besides its phase, its lifecycle and its evidence. */
  predicate Counted(spec: RunSpec, r: Run, store: Store, input: Input, q: Run) {
    && q.log == r.log + NewEvents(spec, r, store, input)
    && q.attempts == r.attempts + (if Begins(spec, r, store, input) then 1 else 0)
    && q.slept == r.slept + SleepOf(spec, r, input)
  }

  /** How a move may change the store, told from the event it records. */
  predicate StoreStep(spec: RunSpec, r: Run, store: Store, es: seq<Event>, m: Moved) {
    if es != [] && (es[0].ClaimedKey? || es[0].StrayClaim?) then
      && spec.key == Some(es[0].key) && !r.holds && m.run.holds
      && es[0].key !in store && m.store == store[es[0].key := InFlight]
    else if es != [] && es[0].CompletedKey? then
      && spec.key == Some(es[0].key) && r.holds && !m.run.holds
      && m.store == Complete(store, es[0].key, es[0].verdict)
    else if es != [] && es[0].ReleasedKey? then
      && spec.key == Some(es[0].key) && r.holds && !m.run.holds
      && m.store == Release(store, es[0].key)
    else m.store == store && m.run.holds == r.holds
  }

  /** The order of the waits within one attempt. */
  function Order(phase: Phase): nat {
    match phase
    case Start => 7
    case PreObserving => 6
    case Sending => 5
    case Dispatching => 4
    case Observing => 3
    case Sleeping => 2
    case Polling => 1
    case Settling(_) => 1
    case Done(_) => 0
    case Cancelled => 0
  }

  /** Where a move can lead, as far as the order of dispatches and observations goes. */
  ghost predicate Leads(spec: RunSpec, r: Run, store: Store, input: Input, q: Run) {
    var es := NewEvents(spec, r, store, input);
    && (q.phase.Start? || q.phase.Polling? ==> q.log == [])
    && (q.phase.Dispatching? && !r.phase.Dispatching? ==> r.phase.Sending?)
    && (q.phase.Sending? && !r.phase.Sending? ==>
          || (Begins(spec, r, store, input) && spec.contract.preconditions == [])
          || (r.phase.PreObserving? && es != [] && PreCheck(spec, es[0].observation).Ok?))
    && (q.phase.PreObserving? && !r.phase.PreObserving? ==> Begins(spec, r, store, input))
    && (q.phase.Sleeping? && spec.observer && !r.phase.Sleeping? ==>
          r.phase.Observing? && es != [] && FailsOn(spec, es[0].observation))
    && (q.phase.Sleeping? && !r.phase.Sleeping? ==> CanFail(spec))
    && (Awaits(spec, r, input) && !r.phase.Start? && !r.phase.Polling? && !r.phase.Settling? ==> Waiting(q))
    && (Awaits(spec, r, input) && !Begins(spec, r, store, input) ==> Order(q.phase) < Order(r.phase))
    && (Begins(spec, r, store, input) ==> Waiting(q) && Order(q.phase) < Order(Start))
  }

  /** The whole effect of a move. */
  ghost predicate Effect(spec: RunSpec, r: Run, store: Store, input: Input, m: Moved) {
    && Counted(spec, r, store, input, m.run)
    && StoreStep(spec, r, store, NewEvents(spec, r, store, input), m)
    && Leads(spec, r, store, input, m.run)
  }

  lemma BeginEffect(spec: RunSpec, r: Run)
    requires r.holds == spec.key.Some?
    requires r.attempts >= 1 ==> spec.verifyBeforeRetry && Retries(spec, r.attempts)
    ensures var q := BeginAttempt(spec, r, Blind(spec));
            && Framed(q, r.(attempts := r.attempts + 1))
            && Waiting(q) && Order(q.phase) < Order(Start) && !q.phase.Polling?
            && !q.phase.Dispatching? && (q.phase.Sending? ==> spec.contract.preconditions == [])
            && (q.phase.Sleeping? ==> !spec.observer && CanFail(spec))
  {
    BeginAttemptErased(spec, r, Blind(spec));
    ConcludedShape(spec, r.attempts + 1, NO_OBSERVATION);
  }

  lemma StartEffect(spec: RunSpec, r: Run, store: Store, input: Input)
    requires Shape(spec, r) && r.phase.Start? && input.Tick?
    ensures Effect(spec, r, store, input, Respond(spec, r, store, input))
  {
    if spec.key.None? {
      BeginEffect(spec, r);
    } else if spec.key.value !in store {
      BeginEffect(spec, r.(holds := true, log := r.log + [ClaimedKey(spec.key.value)]));
    }
  }

  lemma PollEffect(spec: RunSpec, r: Run, store: Store, input: Input)
    requires Shape(spec, r) && r.phase.Polling? && input.Tick?
    ensures Effect(spec, r, store, input, Respond(spec, r, store, input))
  {
  }

  lemma SleepEffect(spec: RunSpec, r: Run, store: Store, input: Input)
    requires Shape(spec, r) && r.phase.Sleeping? && input.Tick?
    ensures Effect(spec, r, store, input, Respond(spec, r, store, input))
  {
    BeginEffect(spec, Wake(spec, r));
  }

  lemma SendEffect(spec: RunSpec, r: Run, store: Store, input: Input)
    requires Shape(spec, r) && r.phase.Sending? && input.Tick?
    ensures Effect(spec, r, store, input, Respond(spec, r, store, input))
  {
  }

  lemma SettleEffect(spec: RunSpec, r: Run, store: Store, input: Input)
    requires Shape(spec, r) && r.phase.Settling? && input.Tick?
    ensures Effect(spec, r, store, input, Respond(spec, r, store, input))
  {
  }

  lemma PreSightEffect(spec: RunSpec, r: Run, store: Store, input: Input)
    requires Shape(spec, r) && r.phase.PreObserving? && input.ObserverReply?
    ensures Effect(spec, r, store, input, Respond(spec, r, store, input))
  {
    hide AfterPreObserving, BeginAttempt;
    AfterPreObservingErased(spec, r, input.sighting, PreSightCheck(spec, input.sighting), Blind(spec));
  }

  lemma DispatchEffect(spec: RunSpec, r: Run, store: Store, input: Input)
    requires Shape(spec, r) && r.phase.Dispatching? && input.AdapterReply?
    ensures Effect(spec, r, store, input, Respond(spec, r, store, input))
  {
    hide AfterDispatching, BeginAttempt;
    AfterDispatchingErased(spec, r, input.answer, Blind(spec));
    ConcludedShape(spec, r.attempts, NO_OBSERVATION);
  }

  lemma SightEffect(spec: RunSpec, r: Run, store: Store, input: Input)
    requires Shape(spec, r) && r.phase.Observing? && input.ObserverReply?
    ensures Effect(spec, r, store, input, Respond(spec, r, store, input))
  {
    hide AfterObserving, BeginAttempt;
    AfterObservingErased(spec, r, input.sighting, SightCheck(spec, input.sighting));
    if input.sighting.Sighted? {
      ConcludedShape(spec, r.attempts, input.sighting.observation);
    }
  }

  lemma RespondEffect(spec: RunSpec, r: Run, store: Store, input: Input)
    requires Shape(spec, r) && Awaits(spec, r, input)
    ensures Effect(spec, r, store, input, Respond(spec, r, store, input))
  {
    match r.phase
    case Start => StartEffect(spec, r, store, input);
    case Polling => PollEffect(spec, r, store, input);
    case PreObserving => PreSightEffect(spec, r, store, input);
    case Sending => SendEffect(spec, r, store, input);
    case Dispatching => DispatchEffect(spec, r, store, input);
    case Observing => SightEffect(spec, r, store, input);
    case Sleeping => SleepEffect(spec, r, store, input);
    case Settling(_) => SettleEffect(spec, r, store, input);
  }

  /**
   * Every move records at most one event, starts at most one attempt, and touches the store only
   * to claim a vacant key, or to complete or release the key it holds.
   */
  lemma MoveEffect(spec: RunSpec, r: Run, store: Store, input: Input)
    requires Shape(spec, r)
    ensures Effect(spec, r, store, input, Move(spec, r, store, input))
  {
    if Awaits(spec, r, input) {
      RespondEffect(spec, r, store, input);
    }
  }
}
