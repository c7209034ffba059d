/**
 * Which check the details of a reply come from (crates/agentverify-runtime/src/executor.rs): they are kept
 * across attempts, so an attempt that ends without a check replies with those of an earlier one.
 */
module ReplyDetails {
  import opened Common
  import opened Verdicts
  import opened Predicates
  import opened Contracts
  import opened Idempotency
  import opened Executor
  import opened ExecutorPhases
  import opened Runs
  import opened RunEffects
  import opened Interleavings
  import opened ExecutorTheorems
  import opened KeySchedules
  import opened StrayClaims
  import L = Lifecycle

  predicate Kept(q: Run, r: Run) {
    q.details == r.details && q.checked == r.checked
  }

  /** The details are those of a check made in this attempt. */
  predicate Renewed(q: Run, ev: Result<Evaluation, RegexError>) {
    ev.Ok? && q.details == ev.value.details && q.checked == q.attempts
  }

  /** What a check does to the details: a check that errs leaves them, and the run then aborts. */
  predicate AfterCheck(q: Run, r: Run, ev: Result<Evaluation, RegexError>) {
    if ev.Ok? then Renewed(q, ev) else Kept(q, r) && q.phase.Settling? && q.phase.exit.AbortRun?
  }

  lemma ConcludeDetails(spec: RunSpec, r: Run, o: Observation, ev: Result<Evaluation, RegexError>)
    requires r.life == L.Observing
    ensures AfterCheck(Conclude(spec, r, o, ev), r, ev)
  {
    hide L.Transition;
    AdvancesAreLegal();
  }

  lemma BeginObservingDetails(spec: RunSpec, r: Run, blind: Result<Evaluation, RegexError>)
    requires r.life == L.Executed || r.life == L.Unknown
    ensures var q := BeginObserving(spec, r, blind); if spec.observer then Kept(q, r) else AfterCheck(q, r, blind)
  {
    hide L.Transition, Conclude;
    AdvancesAreLegal();
    ConcludeDetails(spec, r.(life := L.Observing), NO_OBSERVATION, blind);
  }

  lemma AuthorizeDetails(spec: RunSpec, r: Run, blind: Result<Evaluation, RegexError>)
    requires r.life == L.Validating
    ensures var q := Authorize(spec, r, blind);
            if spec.dispatches || spec.observer then Kept(q, r) else AfterCheck(q, r, blind)
  {
    hide L.Transition, BeginObserving;
    AdvancesAreLegal();
    BeginObservingDetails(spec, r.(life := L.Unknown), blind);
  }

  lemma BeginAttemptDetails(spec: RunSpec, r: Run, blind: Result<Evaluation, RegexError>)
    ensures var q := BeginAttempt(spec, r, blind);
            if spec.contract.preconditions != [] || spec.dispatches || spec.observer then Kept(q, r)
            else AfterCheck(q, r, blind)
  {
    hide L.Transition, Authorize;
    AdvancesAreLegal();
    var begun := r.(attempts := r.attempts + 1, life := L.Validating);
    AuthorizeDetails(spec, begun, blind);
    RejectErased(begun);
  }

  lemma PreSightDetails(spec: RunSpec, r: Run, a: Sighting)
    requires r.life == L.Validating && spec.observer
    ensures Kept(PreSight(spec, r, a), r)
  {
    hide L.Transition, Authorize;
    RejectErased(r);
    if a.Sighted? {
      var seen := r.(log := r.log + [PreSeen(r.attempts, a.observation)]);
      AuthorizeDetails(spec, seen, Blind(spec));
      RejectErased(seen);
    }
  }

  /** Does an answer of the adapter lead on to a check? */
  predicate LeadsOn(a: Answer) {
    a.Outcome? && !a.outcome.TransportError? && !a.outcome.Ambiguous?
  }

  lemma DispatchDetails(spec: RunSpec, r: Run, a: Answer, blind: Result<Evaluation, RegexError>)
    requires r.life == L.Executing
    ensures var q := AfterDispatching(spec, r, a, blind);
            if LeadsOn(a) && !spec.observer then AfterCheck(q, r, blind) else Kept(q, r)
  {
    hide L.Transition, BeginObserving;
    AdvancesAreLegal();
    if LeadsOn(a) {
      var s := r.(log := r.log + [Replied(r.attempts, a)]);
      BeginObservingDetails(spec, s.(life := L.Executed), blind);
      BeginObservingDetails(spec, s.(life := L.Unknown), blind);
    }
  }

  lemma SightDetails(spec: RunSpec, r: Run, a: Sighting)
    requires r.life == L.Observing
    ensures var q := Sight(spec, r, a);
            if a.Sighted? then AfterCheck(q, r, Check(spec, a.observation)) else Kept(q, r)
  {
    hide L.Transition, Conclude, Check;
    if a.Sighted? {
      var seen := r.(log := r.log + [Seen(r.attempts, a.observation)]);
      ConcludeDetails(spec, seen, a.observation, Check(spec, a.observation));
    }
  }

  /** The details come from a check the run made in the given attempt. */
  ghost predicate FromCheck(spec: RunSpec, r: Run, attempt: nat) {
    exists o, v :: FromCheckOf(spec, r, attempt, o, v)
  }

  predicate FromCheckOf(spec: RunSpec, r: Run, attempt: nat, o: Observation, v: Verdict) {
    && Check(spec, o) == Ok(Evaluation(v, r.details))
    && if spec.observer then Seen(attempt, o) in r.log else o == NO_OBSERVATION
  }

  /** A verdict that only a check of the same attempt gives. */
  predicate Checked(spec: RunSpec, v: Verdict) {
    v.Verified? || v.Partial? || (!spec.dispatches && spec.contract.preconditions == [])
  }

  predicate NeedsCheck(spec: RunSpec, phase: Phase) {
    phase.Sleeping? || (phase.Settling? && phase.exit.Finish? && Checked(spec, phase.exit.result))
  }

  /** What one move does: it keeps the details, or renews them by a check. */
  ghost predicate DetailsStep(spec: RunSpec, r: Run, q: Run) {
    || (Kept(q, r) && !NeedsCheck(spec, q.phase))
    || (q.checked == q.attempts >= 1 && FromCheck(spec, q, q.attempts))
  }

  lemma CheckSteps(spec: RunSpec, r: Run, q: Run, o: Observation)
    requires AfterCheck(q, r, Check(spec, o)) && q.attempts >= 1
    requires if spec.observer then Seen(q.attempts, o) in q.log else o == NO_OBSERVATION
    ensures DetailsStep(spec, r, q)
  {
    var ev := Check(spec, o);
    if ev.Ok? {
      assert FromCheckOf(spec, q, q.attempts, o, ev.value.result);
    }
  }

  lemma BeginSteps(spec: RunSpec, r: Run)
    ensures DetailsStep(spec, r, BeginAttempt(spec, r, Blind(spec)))
  {
    hide BeginAttempt, Check;
    var q := BeginAttempt(spec, r, Blind(spec));
    BeginAttemptDetails(spec, r, Blind(spec));
    BeginAttemptErased(spec, r, Blind(spec));
    if spec.contract.preconditions == [] && !spec.dispatches && !spec.observer {
      CheckSteps(spec, r, q, NO_OBSERVATION);
    }
  }

  lemma StartSteps(spec: RunSpec, r: Run, store: Store)
    requires r == FRESH
    ensures DetailsStep(spec, r, FromStart(spec, r, store).run)
  {
    hide BeginAttempt, Check;
    BeginSteps(spec, r);
    if spec.key.Some? {
      BeginSteps(spec, r.(holds := true, log := r.log + [ClaimedKey(spec.key.value)]));
    }
  }

  lemma PreSightSteps(spec: RunSpec, r: Run, a: Sighting)
    requires Shape(spec, r) && r.phase.PreObserving?
    ensures DetailsStep(spec, r, PreSight(spec, r, a))
  {
    hide AfterPreObserving, Check;
    PreSightDetails(spec, r, a);
    AfterPreObservingErased(spec, r, a, PreSightCheck(spec, a), Blind(spec));
  }

  lemma DispatchSteps(spec: RunSpec, r: Run, a: Answer)
    requires Shape(spec, r) && r.phase.Dispatching?
    ensures DetailsStep(spec, r, AfterDispatching(spec, r, a, Blind(spec)))
  {
    hide AfterDispatching, Check;
    DispatchDetails(spec, r, a, Blind(spec));
    AfterDispatchingErased(spec, r, a, Blind(spec));
    if LeadsOn(a) && !spec.observer {
      CheckSteps(spec, r, AfterDispatching(spec, r, a, Blind(spec)), NO_OBSERVATION);
    }
  }

  lemma SightSteps(spec: RunSpec, r: Run, a: Sighting)
    requires Shape(spec, r) && r.phase.Observing?
    ensures DetailsStep(spec, r, Sight(spec, r, a))
  {
    hide AfterObserving, Check;
    SightDetails(spec, r, a);
    AfterObservingErased(spec, r, a, SightCheck(spec, a));
    if a.Sighted? {
      CheckSteps(spec, r, Sight(spec, r, a), a.observation);
    }
  }

  lemma RespondSteps(spec: RunSpec, r: Run, store: Store, input: Input)
    requires Shape(spec, r) && Awaits(spec, r, input)
    ensures DetailsStep(spec, r, Respond(spec, r, store, input).run)
  {
    hide BeginAttempt, AfterPreObserving, AfterDispatching, AfterObserving, Check, FromCheck;
    match r.phase
    case Start => StartSteps(spec, r, store);
    case Polling =>
    case PreObserving => PreSightSteps(spec, r, input.sighting);
    case Sending =>
    case Dispatching => DispatchSteps(spec, r, input.answer);
    case Observing => SightSteps(spec, r, input.sighting);
    case Sleeping => BeginSteps(spec, Wake(spec, r));
    case Settling(_) =>
  }

  /** A reply after at least one attempt. */
  predicate HasReplied(r: Run) {
    r.phase.Done? && r.phase.reply.Returned? && r.phase.reply.receipt.attempts > 0
  }

  /** Where the details of a run come from. */
  ghost predicate DetailsOk(spec: RunSpec, r: Run) {
    && r.checked <= r.attempts
    && (if r.checked == 0 then r.details == [] else FromCheck(spec, r, r.checked))
    && (NeedsCheck(spec, r.phase) ==> r.checked == r.attempts)
    && (HasReplied(r) ==>
          && r.phase.reply.receipt.details == r.details && r.phase.reply.receipt.attempts == r.attempts
          && (Checked(spec, r.phase.reply.result) ==> r.checked == r.attempts))
  }

  lemma MoreLogKeepsCheck(spec: RunSpec, r: Run, q: Run, attempt: nat)
    requires FromCheck(spec, r, attempt) && q.details == r.details && r.log <= q.log
    ensures FromCheck(spec, q, attempt)
  {
    hide Check;
    var o, v :| FromCheckOf(spec, r, attempt, o, v);
    assert FromCheckOf(spec, q, attempt, o, v);
  }

  /** What a move that ends a run replies. */
  predicate RepliesAs(spec: RunSpec, r: Run, q: Run) {
    HasReplied(q) && !r.phase.Done? ==>
      r.phase.Settling? && r.phase.exit.Finish? && q.phase.reply == ReplyOf(spec, r, r.phase.exit) && Kept(q, r)
      && q.attempts == r.attempts
  }

  lemma MoveReplies(spec: RunSpec, r: Run, store: Store, input: Input)
    requires Shape(spec, r)
    ensures RepliesAs(spec, r, Move(spec, r, store, input).run)
  {
    hide BeginAttempt, AfterPreObserving, AfterDispatching, AfterObserving, Check;
    MoveEffect(spec, r, store, input);
    if Awaits(spec, r, input) && r.phase.Start? {
      BeginEffect(spec, r.(holds := spec.key.Some?));
      if spec.key.Some? {
        BeginEffect(spec, r.(holds := true, log := r.log + [ClaimedKey(spec.key.value)]));
      }
    }
  }

  lemma MoveKeepsDetails(spec: RunSpec, r: Run, store: Store, input: Input)
    requires Shape(spec, r) && DetailsOk(spec, r)
    ensures DetailsOk(spec, Move(spec, r, store, input).run)
  {
    hide Respond, FromCheck;
    var q := Move(spec, r, store, input).run;
    MoveEffect(spec, r, store, input);
    MoveReplies(spec, r, store, input);
    if Awaits(spec, r, input) {
      RespondSteps(spec, r, store, input);
    }
    if r.checked > 0 && Kept(q, r) {
      MoreLogKeepsCheck(spec, r, q, r.checked);
    }
  }

  lemma {:induction false} DetailsAfter(specs: seq<RunSpec>, schedule: seq<Turn>, i: nat)
    requires i < |specs|
    ensures DetailsOk(specs[i], After(specs, schedule, i))
  {
    if schedule != [] {
      var n := |schedule| - 1;
      DetailsAfter(specs, schedule[..n], i);
      RunAfterIsOk(specs, schedule[..n], i);
      if schedule[n].run == i {
        hide Move, DetailsOk;
        var s := Play(specs, schedule[..n]);
        MoveKeepsDetails(specs[i], s.runs[i], s.store, schedule[n].input);
      }
    }
  }

  /**
   * The details of any reply after an attempt: none before a first check, and otherwise exactly those of the
   * run's latest check, which is of the last attempt if the verdict is one that only a check gives.
   */
  lemma RepliesCarryTheirLatestCheck(specs: seq<RunSpec>, schedule: seq<Turn>, i: nat)
    requires i < |specs| && HasReplied(After(specs, schedule, i))
    ensures var spec, r := specs[i], After(specs, schedule, i);
            var receipt := r.phase.reply.receipt;
            && receipt.attempts == r.attempts
            && (if r.checked == 0 then receipt.details == []
                else r.checked <= r.attempts && receipt.details == r.details && FromCheck(spec, r, r.checked))
            && (Checked(spec, r.phase.reply.result) ==> r.checked == r.attempts)
  {
    DetailsAfter(specs, schedule, i);
  }

  /** The reply was made after an attempt without a check, with the details of an earlier attempt's. */
  predicate Stale(r: Run) {
    HasReplied(r) && 1 <= r.checked < r.attempts
  }

  ghost predicate RepliesStale(specs: seq<RunSpec>, i: nat)
    requires i < |specs|
  {
    exists schedule :: Stale(After(specs, schedule, i))
  }

  /** The run can fail a check, retry, and end the next attempt before its check. */
  ghost predicate CanReplyStale(spec: RunSpec) {
    CanPass(spec) && CanFail(spec) && MayRetry(spec) && (spec.dispatches || spec.contract.preconditions != [])
  }

  lemma StaleNeeds(specs: seq<RunSpec>, schedule: seq<Turn>, i: nat)
    requires i < |specs| && Stale(After(specs, schedule, i))
    ensures CanReplyStale(specs[i])
  {
    hide Play;
    DetailsAfter(specs, schedule, i);
    RunAfterIsOk(specs, schedule, i);
    PassedAfter(specs, schedule, i);
  }

  /** A first attempt that gets past its preconditions and fails its check, with a retry to follow. */
  lemma ReachSleep(specs: seq<RunSpec>, i: nat) returns (schedule: seq<Turn>)
    requires i < |specs| && CanReplyStale(specs[i])
    ensures var r := After(specs, schedule, i); r.phase.Sleeping? && r.attempts == 1 && r.checked == 1
  {
    hide Play;
    var spec := specs[i];
    assert After(specs, [], i) == FRESH by { AtFirst(specs, i); }
    if spec.dispatches {
      var sent := ReachFirst(specs, i);
      schedule := DispatchAndFail(specs, sent, i);
    } else {
      schedule := SimulateAndFail(specs, i);
    }
    DetailsAfter(specs, schedule, i);
  }

  lemma ReachFirst(specs: seq<RunSpec>, i: nat) returns (schedule: seq<Turn>)
    requires i < |specs| && CanDispatch(specs[i])
    ensures var r := After(specs, schedule, i); r.phase.Dispatching? && r.attempts == 1
  {
    AtFirst(specs, i);
    hide Play;
    schedule := ReachDispatch(specs, [], i);
  }

  lemma SimulateAndFail(specs: seq<RunSpec>, i: nat) returns (schedule: seq<Turn>)
    requires i < |specs| && !specs[i].dispatches && CanReplyStale(specs[i])
    ensures var r := After(specs, schedule, i); r.phase.Sleeping? && r.attempts == 1
  {
    AtFirst(specs, i);
    hide Play, BeginAttempt, AfterObserving, Check;
    var spec := specs[i];
    Solo(specs, [], i, Tick);
    TickBegins(spec, FRESH, map[]);
    var observing := ReachPassed(specs, [] + [Turn(i, Tick)], i);
    var o :| FailsOn(spec, o);
    Solo(specs, observing, i, ObserverReply(Sighted(o)));
    AfterObservingErased(spec, After(specs, observing, i), Sighted(o), SightCheck(spec, Sighted(o)));
    schedule := observing + [Turn(i, ObserverReply(Sighted(o)))];
  }

  const LOST := Outcome(TransportError(""))

  /** The attempt just begun ends before its check: unobserved preconditions, or a call whose answer is lost. */
  lemma EndUnchecked(specs: seq<RunSpec>, schedule: seq<Turn>, i: nat) returns (longer: seq<Turn>)
    requires i < |specs| && CanReplyStale(specs[i])
    requires var r := After(specs, schedule, i); r.phase == AttemptPhase(specs[i], r.attempts, Blind(specs[i]))
    ensures var r, q := After(specs, schedule, i), After(specs, longer, i);
            q.phase.Settling? && q.phase.exit.Finish? && Kept(q, r) && q.attempts == r.attempts
  {
    hide Play, AfterPreObserving, AfterDispatching, Check;
    var spec, r := specs[i], After(specs, schedule, i);
    if spec.contract.preconditions != [] {
      Solo(specs, schedule, i, ObserverReply(ObserverTimedOut));
      AfterPreObservingErased(spec, r, ObserverTimedOut, PreSightCheck(spec, ObserverTimedOut), Blind(spec));
      PreSightDetails(spec, r, ObserverTimedOut);
      longer := schedule + [Turn(i, ObserverReply(ObserverTimedOut))];
    } else {
      Solo(specs, schedule, i, Tick);
      var sent := schedule + [Turn(i, Tick)];
      Solo(specs, sent, i, AdapterReply(LOST));
      AfterDispatchingErased(spec, After(specs, sent, i), LOST, Blind(spec));
      DispatchDetails(spec, After(specs, sent, i), LOST, Blind(spec));
      longer := sent + [Turn(i, AdapterReply(LOST))];
    }
  }

  lemma StaleSchedule(specs: seq<RunSpec>, i: nat) returns (schedule: seq<Turn>)
    requires i < |specs| && CanReplyStale(specs[i])
    ensures Stale(After(specs, schedule, i))
  {
    hide Play, BeginAttempt, Check;
    var spec := specs[i];
    var asleep := ReachSleep(specs, i);
    var r := After(specs, asleep, i);
    Solo(specs, asleep, i, Tick);
    TickBegins(spec, r, Play(specs, asleep).store);
    BeginAttemptDetails(spec, Wake(spec, r), Blind(spec));
    var leaving := EndUnchecked(specs, asleep + [Turn(i, Tick)], i);
    Solo(specs, leaving, i, Tick);
    schedule := leaving + [Turn(i, Tick)];
  }

  /**
   * A run can reply with the details of an earlier attempt exactly when its preconditions can be met, its
   * check can fail, it may retry, and it dispatches or has preconditions.
   */
  lemma RepliesStaleIff(specs: seq<RunSpec>, i: nat)
    requires i < |specs|
    ensures RepliesStale(specs, i) <==> CanReplyStale(specs[i])
  {
    if schedule :| Stale(After(specs, schedule, i)) {
      StaleNeeds(specs, schedule, i);
    }
    if CanReplyStale(specs[i]) {
      var schedule := StaleSchedule(specs, i);
    }
  }
}
