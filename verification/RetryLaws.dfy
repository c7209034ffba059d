/**
 * When a run tries again, on its configuration alone, and that it can use up all its attempts
 * (crates/agentverify-runtime/src/executor.rs).
 */
module RetryLaws {
  import opened Common
  import opened Verdicts
  import opened Contracts
  import opened Executor
  import opened ExecutorPhases
  import opened Runs
  import opened Interleavings
  import opened ExecutorTheorems
  import opened KeySchedules
  import L = Lifecycle

  /** Attempts a configuration names: its recovery's, none after the first if that takes no action, or the default. */
  function ConfiguredAttempts(spec: RunSpec): nat {
    match spec.contract.recovery
    case Some(config) => if config.strategy == NoAction then 1 else config.maxAttempts
    case None => spec.maxRetries
  }

  /** A failed check is followed by another attempt exactly if that is asked for and attempts are left. */
  lemma FailedCheckSleepsIff(spec: RunSpec, r: Run, o: Observation, details: seq<Detail>)
    requires r.life == L.Observing && r.attempts >= 1
    ensures var q := Conclude(spec, r, o, Ok(Evaluation(Failed, details)));
            && (q.phase.Sleeping? <==> spec.verifyBeforeRetry && r.attempts < ConfiguredAttempts(spec))
            && (!q.phase.Sleeping? ==> q.phase == Settling(Finish(Failed, None)))
  {
    hide Conclude;
    ConcludeErased(spec, r, o, Ok(Evaluation(Failed, details)));
  }

  /** The number of attempts is the configured one, or one if that is none. */
  lemma LimitIsConfigured(spec: RunSpec)
    ensures AttemptLimit(spec) == if ConfiguredAttempts(spec) == 0 then 1 else ConfiguredAttempts(spec)
  {
  }

  /** Where a failed attempt ends. */
  function FailedPhase(spec: RunSpec, attempts: nat): Phase {
    if spec.verifyBeforeRetry && attempts < ConfiguredAttempts(spec) then Sleeping else Settling(Finish(Failed, None))
  }

  lemma FailsWith(spec: RunSpec, attempts: nat, o: Observation)
    requires FailsOn(spec, o) && attempts >= 1
    ensures ConcludedPhase(spec, attempts, o, Check(spec, o)) == FailedPhase(spec, attempts)
  {
    hide Check;
  }

  /** The observation of an attempt under way fails its check. */
  lemma ObserveAndFail(specs: seq<RunSpec>, schedule: seq<Turn>, i: nat) returns (longer: seq<Turn>)
    requires i < |specs| && CanFail(specs[i])
    requires var r := After(specs, schedule, i);
             r.attempts >= 1 && r.phase == ObservingPhase(specs[i], r.attempts, Blind(specs[i]))
    ensures var r, q := After(specs, schedule, i), After(specs, longer, i);
            q.phase == FailedPhase(specs[i], r.attempts) && q.attempts == r.attempts
  {
    hide AfterObserving, Check, Play;
    var spec, r := specs[i], After(specs, schedule, i);
    longer := schedule;
    if spec.observer {
      var o :| FailsOn(spec, o);
      Solo(specs, schedule, i, ObserverReply(Sighted(o)));
      AfterObservingErased(spec, r, Sighted(o), SightCheck(spec, Sighted(o)));
      FailsWith(spec, r.attempts, o);
      longer := schedule + [Turn(i, ObserverReply(Sighted(o)))];
    } else {
      FailsWith(spec, r.attempts, NO_OBSERVATION);
    }
  }

  /** A whole attempt that fails its check. */
  lemma FailAttempt(specs: seq<RunSpec>, schedule: seq<Turn>, i: nat) returns (longer: seq<Turn>)
    requires i < |specs| && CanPass(specs[i]) && CanFail(specs[i])
    requires var s := Play(specs, schedule); Ready(specs[i], s.runs[i], s.store)
    ensures var r, q := After(specs, schedule, i), After(specs, longer, i);
            q.phase == FailedPhase(specs[i], r.attempts + 1) && q.attempts == r.attempts + 1
  {
    hide BeginAttempt, AfterDispatching, Check, Play;
    var spec, s := specs[i], Play(specs, schedule);
    Solo(specs, schedule, i, Tick);
    TickBegins(spec, s.runs[i], s.store);
    longer := ReachPassed(specs, schedule + [Turn(i, Tick)], i);
    if spec.dispatches {
      Solo(specs, longer, i, Tick);
      var sent := longer + [Turn(i, Tick)];
      Solo(specs, sent, i, AdapterReply(SUCCESS));
      AfterDispatchingErased(spec, After(specs, sent, i), SUCCESS, Blind(spec));
      longer := sent + [Turn(i, AdapterReply(SUCCESS))];
    }
    longer := ObserveAndFail(specs, longer, i);
  }

  /** Any number of attempts up to the limit, all failed. */
  lemma {:induction false} ReachAttempts(specs: seq<RunSpec>, i: nat, n: nat) returns (schedule: seq<Turn>)
    requires i < |specs| && CanPass(specs[i]) && CanFail(specs[i]) && specs[i].verifyBeforeRetry
    requires 1 <= n <= AttemptLimit(specs[i])
    ensures var q := After(specs, schedule, i); q.attempts == n && q.phase == FailedPhase(specs[i], n)
  {
    hide Play;
    LimitIsConfigured(specs[i]);
    if n == 1 {
      AtFirst(specs, i);
      schedule := FailAttempt(specs, [], i);
    } else {
      schedule := ReachAttempts(specs, i, n - 1);
      schedule := FailAttempt(specs, schedule, i);
    }
  }

  /**
   * Every run that can pass its preconditions and fail its check, and verifies before it retries, can make
   * exactly as many attempts as it is configured for, at least one, and replies `Failed` after the last.
   */
  lemma AllAttemptsCanBeMade(specs: seq<RunSpec>, i: nat) returns (schedule: seq<Turn>)
    requires i < |specs| && CanPass(specs[i]) && CanFail(specs[i]) && specs[i].verifyBeforeRetry
    ensures var q := After(specs, schedule, i);
            && q.attempts == (if ConfiguredAttempts(specs[i]) == 0 then 1 else ConfiguredAttempts(specs[i]))
            && q.phase.Done? && q.phase.reply.Returned? && q.phase.reply.result == Failed
            && q.phase.reply.receipt.attempts == q.attempts
  {
    hide Play;
    LimitIsConfigured(specs[i]);
    var leaving := ReachAttempts(specs, i, AttemptLimit(specs[i]));
    Solo(specs, leaving, i, Tick);
    schedule := leaving + [Turn(i, Tick)];
  }
}
