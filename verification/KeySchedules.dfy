/**
 * What a run's configuration lets it do, and schedules in which it does it
 * (crates/agentverify-runtime/src/executor.rs). No other run moves in them.
 */
module KeySchedules {
  import opened Common
  import opened Idempotency
  import opened Executor
  import opened ExecutorPhases
  import opened Runs
  import opened RunEffects
  import opened Interleavings
  import opened ExecutorTheorems

  /** The preconditions of a run can be met. */
  ghost predicate CanPass(spec: RunSpec) {
    spec.contract.preconditions == [] || (spec.observer && exists o :: PreCheck(spec, o).Ok?)
  }

  ghost predicate CanDispatch(spec: RunSpec) {
    spec.dispatches && CanPass(spec)
  }

  /**
   * The run can dispatch, its postconditions can be observed to fail, and the configuration lets it
   * try again then. A single-attempt configuration rules this out.
   */
  ghost predicate CanDispatchAgain(spec: RunSpec) {
    CanDispatch(spec) && CanFail(spec) && MayRetry(spec)
  }

  /**
   * The run can be brought to release its key: by a rejected dispatch, or when nothing is dispatched by a
   * failed check.
   */
  ghost predicate CanRelease(spec: RunSpec) {
    CanPass(spec) && (spec.dispatches || spec.observer || Blind(spec).Err?)
  }

  /** All runs but one are as before, and so is the store. */
  ghost predicate OthersAlike(specs: seq<RunSpec>, s: System, t: System, i: nat)
    requires |s.runs| == |specs| && |t.runs| == |specs|
  {
    forall j :: 0 <= j < |specs| && j != i ==> t.runs[j] == s.runs[j]
  }

  /** One turn of run `i`. */
  lemma Solo(specs: seq<RunSpec>, schedule: seq<Turn>, i: nat, input: Input)
    requires i < |specs|
    ensures var s, t := Play(specs, schedule), Play(specs, schedule + [Turn(i, input)]);
            var m := Move(specs[i], s.runs[i], s.store, input);
            && t.runs[i] == m.run && t.store == m.store && OthersAlike(specs, s, t, i)
            && t.trace == s.trace + Stamped(i, NewEvents(specs[i], s.runs[i], s.store, input))
            && Shape(specs[i], s.runs[i]) && Shape(specs[i], t.runs[i])
  {
    PlayOne(specs, schedule, Turn(i, input));
    RunAfterIsOk(specs, schedule, i);
    RunAfterIsOk(specs, schedule + [Turn(i, input)], i);
  }

  lemma AtFirst(specs: seq<RunSpec>, i: nat)
    requires i < |specs|
    ensures After(specs, [], i) == FRESH && Play(specs, []).store == map[]
  {
  }

  /** Is the run about to make an attempt? */
  predicate Ready(spec: RunSpec, r: Run, store: Store) {
    (r.phase.Sleeping? && r.attempts >= 1) || (r.phase.Start? && (spec.key.None? || spec.key.value !in store))
  }

  lemma ClaimBegins(spec: RunSpec, r: Run, store: Store, k: string)
    requires spec.key == Some(k) && k !in store
    ensures var m := FromStart(spec, r, store);
            && m.run.attempts == r.attempts + 1 && m.run.phase == AttemptPhase(spec, m.run.attempts, Blind(spec))
            && m.store == store[k := InFlight]
  {
    hide BeginAttempt;
    BeginAttemptErased(spec, r.(holds := true, log := r.log + [ClaimedKey(k)]), Blind(spec));
  }

  lemma KeylessBegins(spec: RunSpec, r: Run, store: Store)
    requires spec.key.None?
    ensures var q := FromStart(spec, r, store).run;
            q.attempts == r.attempts + 1 && q.phase == AttemptPhase(spec, q.attempts, Blind(spec))
  {
    hide BeginAttempt;
    BeginAttemptErased(spec, r, Blind(spec));
  }

  lemma TickBegins(spec: RunSpec, r: Run, store: Store)
    requires Ready(spec, r, store)
    ensures var q := Move(spec, r, store, Tick).run;
            q.attempts == r.attempts + 1 && q.phase == AttemptPhase(spec, q.attempts, Blind(spec))
  {
    hide BeginAttempt, FromStart, FromPolling, FromSettling;
    if r.phase.Sleeping? {
      BeginAttemptErased(spec, Wake(spec, r), Blind(spec));
    } else {
      assert Move(spec, r, store, Tick) == FromStart(spec, r, store);
      if spec.key.Some? {
        ClaimBegins(spec, r, store, spec.key.value);
      } else {
        KeylessBegins(spec, r, store);
      }
    }
  }

  /** An attempt just begun can get past its preconditions. */
  lemma ReachPassed(specs: seq<RunSpec>, schedule: seq<Turn>, i: nat) returns (longer: seq<Turn>)
    requires i < |specs| && CanPass(specs[i])
    requires var r := Play(specs, schedule).runs[i]; r.phase == AttemptPhase(specs[i], r.attempts, Blind(specs[i]))
    ensures var s, t := Play(specs, schedule), Play(specs, longer);
            && t.runs[i].phase == AuthorizedPhase(specs[i], s.runs[i].attempts, Blind(specs[i]))
            && t.runs[i].attempts == s.runs[i].attempts && t.store == s.store && OthersAlike(specs, s, t, i)
            && s.trace <= t.trace
  {
    hide AfterPreObserving;
    var spec, s := specs[i], Play(specs, schedule);
    longer := schedule;
    if spec.contract.preconditions != [] {
      var o :| PreCheck(spec, o).Ok?;
      Solo(specs, schedule, i, ObserverReply(Sighted(o)));
      AfterPreObservingErased(spec, s.runs[i], Sighted(o), PreSightCheck(spec, Sighted(o)), Blind(spec));
      longer := schedule + [Turn(i, ObserverReply(Sighted(o)))];
    }
  }

  /** A run that can dispatch can be brought to call its adapter. */
  lemma ReachDispatch(specs: seq<RunSpec>, schedule: seq<Turn>, i: nat) returns (longer: seq<Turn>)
    requires i < |specs| && CanDispatch(specs[i])
    requires var s := Play(specs, schedule); Ready(specs[i], s.runs[i], s.store)
    ensures var s, t := Play(specs, schedule), Play(specs, longer);
            && t.runs[i].phase.Dispatching? && t.runs[i].attempts == s.runs[i].attempts + 1
            && OthersAlike(specs, s, t, i) && s.trace <= t.trace
            && |s.trace| < |t.trace| && t.trace[|t.trace| - 1] == Stamp(i, Sent(t.runs[i].attempts))
  {
    hide BeginAttempt;
    var s := Play(specs, schedule);
    Solo(specs, schedule, i, Tick);
    TickBegins(specs[i], s.runs[i], s.store);
    longer := ReachPassed(specs, schedule + [Turn(i, Tick)], i);
    Solo(specs, longer, i, Tick);
    longer := longer + [Turn(i, Tick)];
  }

  const SUCCESS := Outcome(Finished)

  /** The dispatch takes effect; if it is the first attempt and the postconditions can fail, the run will try again. */
  lemma DispatchAndFail(specs: seq<RunSpec>, schedule: seq<Turn>, i: nat) returns (longer: seq<Turn>)
    requires i < |specs| && CanDispatchAgain(specs[i])
    requires Play(specs, schedule).runs[i].phase.Dispatching? && Play(specs, schedule).runs[i].attempts == 1
    ensures var s, t := Play(specs, schedule), Play(specs, longer);
            && s.trace + [Stamp(i, Replied(1, SUCCESS))] <= t.trace
            && t.runs[i].phase.Sleeping? && t.runs[i].attempts == 1 && OthersAlike(specs, s, t, i)
  {
    hide AfterDispatching, AfterObserving, Check, Play;
    var spec, s := specs[i], Play(specs, schedule);
    Solo(specs, schedule, i, AdapterReply(SUCCESS));
    AfterDispatchingErased(spec, s.runs[i], SUCCESS, Blind(spec));
    longer := schedule + [Turn(i, AdapterReply(SUCCESS))];
    if spec.observer {
      var t := Play(specs, longer);
      var o :| FailsOn(spec, o);
      Solo(specs, longer, i, ObserverReply(Sighted(o)));
      AfterObservingErased(spec, t.runs[i], Sighted(o), SightCheck(spec, Sighted(o)));
      longer := longer + [Turn(i, ObserverReply(Sighted(o)))];
    }
  }

  const REJECTION := Fault(DispatchError.Rejected(""))

  /** The exit that releases the key. */
  predicate Releases(phase: Phase) {
    phase.Settling? && phase.exit.AbortRun? && phase.exit.policy.ReleaseClaim?
  }

  /** A call of the adapter can be rejected, and the run then leaves to release its key. */
  lemma ReachRejection(specs: seq<RunSpec>, schedule: seq<Turn>, i: nat) returns (longer: seq<Turn>)
    requires i < |specs| && Play(specs, schedule).runs[i].phase.Dispatching?
    ensures var s, t := Play(specs, schedule), Play(specs, longer);
            && Releases(t.runs[i].phase) && OthersAlike(specs, s, t, i) && t.store == s.store && s.trace <= t.trace
  {
    hide AfterDispatching;
    var spec, s := specs[i], Play(specs, schedule);
    Solo(specs, schedule, i, AdapterReply(REJECTION));
    AfterDispatchingErased(spec, s.runs[i], REJECTION, Blind(spec));
    longer := schedule + [Turn(i, AdapterReply(REJECTION))];
  }

  lemma ReleaseNow(specs: seq<RunSpec>, schedule: seq<Turn>, i: nat, k: string)
    requires i < |specs| && specs[i].key == Some(k) && Releases(Play(specs, schedule).runs[i].phase)
    ensures var s, t := Play(specs, schedule), Play(specs, schedule + [Turn(i, Tick)]);
            && t.runs[i].phase.Done? && OthersAlike(specs, s, t, i) && k !in t.store
            && t.trace == s.trace + [Stamp(i, ReleasedKey(k))]
  {
    Solo(specs, schedule, i, Tick);
  }
}
