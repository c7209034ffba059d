/**
 * How many times an action may take effect for one key, by one run and by several
 * (crates/agentverify-runtime/src/executor.rs).
 */
module KeyEffects {
  import opened Common
  import opened Executor
  import opened Runs
  import opened RunEffects
  import opened RunLogs
  import opened Interleavings
  import opened Traces
  import opened ExecutorTheorems
  import opened TracePlaces
  import opened KeySchedules

  /** The adapter answered this very call with one of the answers that prove nothing was sent. */
  ghost predicate Cleared(trace: seq<Stamp>, i: int)
    requires 0 <= i < |trace| && trace[i].event.Sent?
  {
    exists j :: i < j < |trace| && trace[j].run == trace[i].run && ClearsAttempt(trace[j].event, trace[i].event.attempt)
  }

  predicate ClearsAttempt(e: Event, attempt: nat) {
    SafeDispatch(e) && e.attempt == attempt
  }

  /** A call of the adapter on the key that may have taken effect: answered otherwise, or not at all. */
  ghost predicate EffectAt(specs: seq<RunSpec>, trace: seq<Stamp>, i: int, k: string) {
    DispatchAt(specs, trace, i, k) && !Cleared(trace, i)
  }

  /** In no interleaving does the key see two possible effects. */
  ghost predicate AtMostOneEffect(specs: seq<RunSpec>, k: string) {
    forall schedule, i, j ::
      EffectAt(specs, Play(specs, schedule).trace, i, k) && EffectAt(specs, Play(specs, schedule).trace, j, k) ==>
        i == j
  }

  /** In some interleaving two different runs may both have taken effect on the key. */
  ghost predicate TwoRunsTakeEffect(specs: seq<RunSpec>, k: string) {
    exists schedule, i, j :: EffectsOfTwo(specs, Play(specs, schedule).trace, i, j, k)
  }

  ghost predicate EffectsOfTwo(specs: seq<RunSpec>, trace: seq<Stamp>, i: int, j: int, k: string) {
    EffectAt(specs, trace, i, k) && EffectAt(specs, trace, j, k) && trace[i].run != trace[j].run
  }

  /** In some interleaving a run may have taken effect on the key and then released it. */
  ghost predicate ReleasedAfterEffect(specs: seq<RunSpec>, k: string) {
    exists schedule, i, j :: EffectThenRelease(specs, Play(specs, schedule).trace, i, j, k)
  }

  ghost predicate EffectThenRelease(specs: seq<RunSpec>, trace: seq<Stamp>, i: int, j: int, k: string) {
    EffectAt(specs, trace, i, k) && i < j < |trace| && trace[j] == Stamp(trace[i].run, ReleasedKey(k))
  }

  lemma DispatchedOnce(spec: RunSpec, r: Run, n: nat)
    requires RunOk(spec, r) && n < |r.log| && r.log[n].Sent?
    ensures CanDispatch(spec)
  {
    if spec.contract.preconditions != [] {
      var p :| 0 <= p < n && PreVerified(spec, r.log[p], r.log[n].attempt);
    }
  }

  lemma DispatchedTwice(spec: RunSpec, r: Run, m: nat, n: nat)
    requires RunOk(spec, r) && m < n < |r.log| && r.log[m].Sent? && r.log[n].Sent?
    ensures CanDispatchAgain(spec)
  {
    DispatchedOnce(spec, r, n);
    assert r.log[m].attempt < r.log[n].attempt;
    assert r.attempts > 1 && Retries(spec, r.attempts - 1);
  }

  /** A run that released its key after a possible effect of its own had called its adapter again in between. */
  lemma ReleaseAfterEffectNeedsARetry(specs: seq<RunSpec>, schedule: seq<Turn>, i: nat, p: nat, k: string)
    requires EffectThenRelease(specs, Play(specs, schedule).trace, i, p, k)
    ensures CanDispatchAgain(specs[Play(specs, schedule).trace[i].run])
  {
    EveryScheduleIsOk(specs, schedule);
    var s := Play(specs, schedule);
    var a := s.trace[i].run;
    var r := s.runs[a];
    assert RunOk(specs[a], r) && Project(s.trace, a) == r.log;
    var m, n := PlacesInLog(s.trace, i, p, a);
    assert SafeDispatch(r.log[n - 1]) && r.log[n - 2] == Sent(r.log[n - 1].attempt);
    if m == n - 2 {
      var j := LaterInTrace(s.trace, i, a, n - 1);
      assert ClearsAttempt(s.trace[j].event, s.trace[i].event.attempt);
      assert false;
    }
    DispatchedTwice(specs[a], r, m, n - 2);
  }

  /** Two runs that may both have taken effect: the earlier can dispatch again, and the later can dispatch. */
  lemma EffectsOfTwoNeedARetry(specs: seq<RunSpec>, schedule: seq<Turn>, i: nat, j: nat, k: string)
    requires i < j && EffectsOfTwo(specs, Play(specs, schedule).trace, i, j, k)
    ensures var trace := Play(specs, schedule).trace;
            CanDispatchAgain(specs[trace[i].run]) && CanDispatch(specs[trace[j].run])
  {
    EveryScheduleIsOk(specs, schedule);
    var s := Play(specs, schedule);
    var a, b := s.trace[i].run, s.trace[j].run;
    assert Separated(s.trace, i, j, k);
    var q :| 0 <= q < j && s.trace[q] == Stamp(b, ClaimedKey(k)) && ReleasedBetween(s.trace, i, q, a, k);
    var p :| i < p < q && s.trace[p] == Stamp(a, ReleasedKey(k));
    ReleaseAfterEffectNeedsARetry(specs, schedule, i, p, k);
    PlaceInLog(s.trace, j, b);
    assert RunOk(specs[b], s.runs[b]) && Project(s.trace, b) == s.runs[b].log;
    DispatchedOnce(specs[b], s.runs[b], |Project(s.trace[..j], b)|);
  }

  lemma TwoEffectsNeedARetry(specs: seq<RunSpec>, schedule: seq<Turn>, i: nat, j: nat, k: string)
    requires var trace := Play(specs, schedule).trace;
             i < j && EffectAt(specs, trace, i, k) && EffectAt(specs, trace, j, k)
    ensures var a := Play(specs, schedule).trace[i].run; specs[a].key == Some(k) && CanDispatchAgain(specs[a])
  {
    EveryScheduleIsOk(specs, schedule);
    var s := Play(specs, schedule);
    var a := s.trace[i].run;
    if s.trace[j].run == a {
      assert RunOk(specs[a], s.runs[a]) && Project(s.trace, a) == s.runs[a].log;
      var m, n := PlacesInLog(s.trace, i, j, a);
      DispatchedTwice(specs[a], s.runs[a], m, n);
    } else {
      EffectsOfTwoNeedARetry(specs, schedule, i, j, k);
    }
  }

  /** The answer to a call, if there is one, is the next event of its run. */
  lemma AnswerIsNext(spec: RunSpec, r: Run, m: nat, x: nat)
    requires RunOk(spec, r) && m < x < |r.log| && r.log[m].Sent? && r.log[x].Replied?
             && r.log[x].attempt == r.log[m].attempt
    ensures x == m + 1
  {
    assert r.log[x - 1] == Sent(r.log[m].attempt);
  }

  lemma ClearedNext(specs: seq<RunSpec>, schedule: seq<Turn>, i: nat, k: string)
    requires var trace := Play(specs, schedule).trace; DispatchAt(specs, trace, i, k) && Cleared(trace, i)
    ensures var s := Play(specs, schedule);
            var a := s.trace[i].run;
            var m := |Project(s.trace[..i], a)|;
            m + 1 < |Project(s.trace, a)| && SafeDispatch(Project(s.trace, a)[m + 1])
  {
    hide Play, RunOk;
    EveryScheduleIsOk(specs, schedule);
    var s := Play(specs, schedule);
    var a := s.trace[i].run;
    var j :| i < j < |s.trace| && s.trace[j].run == a && ClearsAttempt(s.trace[j].event, s.trace[i].event.attempt);
    assert RunOk(specs[a], s.runs[a]) && Project(s.trace, a) == s.runs[a].log;
    var m, n := PlacesInLog(s.trace, i, j, a);
    AnswerIsNext(specs[a], s.runs[a], m, n);
  }

  /**
   * A call stays a possible effect if its answer comes right after it in the trace and clears nothing, or
   * if it is the last event of the trace.
   */
  lemma StaysAnEffect(specs: seq<RunSpec>, schedule: seq<Turn>, i: nat, k: string)
    requires var trace := Play(specs, schedule).trace;
             && DispatchAt(specs, trace, i, k)
             && (i + 1 < |trace| ==> trace[i + 1] == Stamp(trace[i].run, Replied(trace[i].event.attempt, SUCCESS)))
    ensures EffectAt(specs, Play(specs, schedule).trace, i, k)
  {
    hide Play;
    var trace := Play(specs, schedule).trace;
    if i + 1 < |trace| {
      NextInLog(trace, i, trace[i].run);
      if Cleared(trace, i) {
        ClearedNext(specs, schedule, i, k);
        assert false;
      }
    }
  }

  /** A run that can dispatch again, brought to its second call. */
  lemma ReachSecondDispatch(specs: seq<RunSpec>, i: nat) returns (schedule: seq<Turn>, m: nat)
    requires i < |specs| && CanDispatchAgain(specs[i])
    ensures var s := Play(specs, schedule);
            && s.runs[i].phase.Dispatching? && OthersAlike(specs, Play(specs, []), s, i)
            && m + 2 < |s.trace| && s.trace[m] == Stamp(i, Sent(1)) && s.trace[m + 1] == Stamp(i, Replied(1, SUCCESS))
            && s.trace[|s.trace| - 1] == Stamp(i, Sent(s.runs[i].attempts))
  {
    var first := ReachDispatch(specs, [], i);
    m := |Play(specs, first).trace| - 1;
    var failed := DispatchAndFail(specs, first, i);
    var s, t := Play(specs, first), Play(specs, failed);
    assert (s.trace + [Stamp(i, Replied(1, SUCCESS))])[m + 1] == Stamp(i, Replied(1, SUCCESS));
    schedule := ReachDispatch(specs, failed, i);
  }

  /** The adapter answers the call a run is waiting for with a success. */
  lemma AnswerCall(specs: seq<RunSpec>, schedule: seq<Turn>, i: nat) returns (longer: seq<Turn>)
    requires i < |specs| && Play(specs, schedule).runs[i].phase.Dispatching?
    ensures var s, t := Play(specs, schedule), Play(specs, longer);
            t.trace == s.trace + [Stamp(i, Replied(s.runs[i].attempts, SUCCESS))]
  {
    hide AfterDispatching;
    Solo(specs, schedule, i, AdapterReply(SUCCESS));
    longer := schedule + [Turn(i, AdapterReply(SUCCESS))];
  }

  /** A call on a key, answered right away with a success: it took effect for all the run can know. */
  predicate SucceedsAt(specs: seq<RunSpec>, trace: seq<Stamp>, i: int, k: string) {
    && DispatchAt(specs, trace, i, k) && i + 1 < |trace|
    && trace[i + 1] == Stamp(trace[i].run, Replied(trace[i].event.attempt, SUCCESS))
  }

  /** A run that can dispatch again can take effect twice, both calls being answered with a success. */
  lemma ARetryGivesTwoEffects(specs: seq<RunSpec>, i: nat, k: string) returns (schedule: seq<Turn>, m: nat, n: nat)
    requires i < |specs| && specs[i].key == Some(k) && CanDispatchAgain(specs[i])
    ensures var trace := Play(specs, schedule).trace;
            && m < n && SucceedsAt(specs, trace, m, k) && SucceedsAt(specs, trace, n, k)
            && EffectAt(specs, trace, m, k) && EffectAt(specs, trace, n, k)
  {
    var waiting;
    waiting, m := ReachSecondDispatch(specs, i);
    n := |Play(specs, waiting).trace| - 1;
    schedule := AnswerCall(specs, waiting, i);
    StaysAnEffect(specs, schedule, m, k);
    StaysAnEffect(specs, schedule, n, k);
  }

  /**
   * A key sees at most one possible effect in every interleaving exactly when no run on it can
   * dispatch again. In particular configurations without a retry give at most one effect per key.
   */
  lemma AtMostOneEffectIffNoRetry(specs: seq<RunSpec>, k: string)
    ensures AtMostOneEffect(specs, k) <==>
            forall i :: 0 <= i < |specs| && specs[i].key == Some(k) ==> !CanDispatchAgain(specs[i])
  {
    if i :| 0 <= i < |specs| && specs[i].key == Some(k) && CanDispatchAgain(specs[i]) {
      var schedule, m, n := ARetryGivesTwoEffects(specs, i, k);
      assert !AtMostOneEffect(specs, k);
    } else {
      forall schedule, i, j |
        EffectAt(specs, Play(specs, schedule).trace, i, k) && EffectAt(specs, Play(specs, schedule).trace, j, k)
        ensures i == j
      {
        if i < j {
          TwoEffectsNeedARetry(specs, schedule, i, j, k);
        } else if j < i {
          TwoEffectsNeedARetry(specs, schedule, j, i, k);
        }
      }
    }
  }

  /** The second call is rejected, and the run releases its key although its first call may have taken effect. */
  lemma ARetryReleasesAfterEffect(specs: seq<RunSpec>, i: nat, k: string) returns (schedule: seq<Turn>, m: nat)
    requires i < |specs| && specs[i].key == Some(k) && CanDispatchAgain(specs[i])
    ensures var s := Play(specs, schedule);
            && OthersAlike(specs, Play(specs, []), s, i) && k !in s.store
            && m + 1 < |s.trace| && s.trace[m] == Stamp(i, Sent(1)) && s.trace[m + 1] == Stamp(i, Replied(1, SUCCESS))
            && EffectThenRelease(specs, s.trace, m, |s.trace| - 1, k)
  {
    schedule, m := ReachSecondDispatch(specs, i);
    var rejected := ReachRejection(specs, schedule, i);
    ReleaseNow(specs, rejected, i, k);
    schedule := rejected + [Turn(i, Tick)];
    StaysAnEffect(specs, schedule, m, k);
  }

  /**
   * A run releases a key after a possible effect of its own, in some interleaving, exactly when some run
   * on the key can dispatch again: the claim policy looks at the last answer of the adapter only.
   */
  lemma ReleasedAfterEffectIffRetry(specs: seq<RunSpec>, k: string)
    ensures ReleasedAfterEffect(specs, k) <==>
            exists i :: 0 <= i < |specs| && specs[i].key == Some(k) && CanDispatchAgain(specs[i])
  {
    if schedule, i, j :| EffectThenRelease(specs, Play(specs, schedule).trace, i, j, k) {
      ReleaseAfterEffectNeedsARetry(specs, schedule, i, j, k);
    }
    if i :| 0 <= i < |specs| && specs[i].key == Some(k) && CanDispatchAgain(specs[i]) {
      var schedule, m := ARetryReleasesAfterEffect(specs, i, k);
      assert EffectThenRelease(specs, Play(specs, schedule).trace, m, |Play(specs, schedule).trace| - 1, k);
    }
  }

  /** Another run then claims the released key and dispatches again; both calls are answered with a success. */
  lemma ARetryLetsAnotherRunIn(specs: seq<RunSpec>, a: nat, b: nat, k: string)
    returns (schedule: seq<Turn>, m: nat, n: nat)
    requires a < |specs| && b < |specs| && a != b && specs[a].key == Some(k) && specs[b].key == Some(k)
    requires CanDispatchAgain(specs[a]) && CanDispatch(specs[b])
    ensures var trace := Play(specs, schedule).trace;
            EffectsOfTwo(specs, trace, m, n, k) && SucceedsAt(specs, trace, m, k) && SucceedsAt(specs, trace, n, k)
  {
    var released;
    released, m := ARetryReleasesAfterEffect(specs, a, k);
    assert Play(specs, released).runs[b] == FRESH;
    var waiting := ReachDispatch(specs, released, b);
    n := |Play(specs, waiting).trace| - 1;
    schedule := AnswerCall(specs, waiting, b);
    StaysAnEffect(specs, schedule, m, k);
    StaysAnEffect(specs, schedule, n, k);
  }

  /**
   * Two different runs may both take effect on a key, in some interleaving, exactly when one of them can
   * dispatch again and the other can dispatch.
   */
  lemma TwoRunsTakeEffectIff(specs: seq<RunSpec>, k: string)
    ensures TwoRunsTakeEffect(specs, k) <==>
            exists a, b ::
              && 0 <= a < |specs| && 0 <= b < |specs| && a != b && specs[a].key == Some(k) && specs[b].key == Some(k)
              && CanDispatchAgain(specs[a]) && CanDispatch(specs[b])
  {
    if schedule, i, j :| EffectsOfTwo(specs, Play(specs, schedule).trace, i, j, k) {
      if i < j {
        EffectsOfTwoNeedARetry(specs, schedule, i, j, k);
      } else {
        EffectsOfTwoNeedARetry(specs, schedule, j, i, k);
      }
    }
    if a, b :| && 0 <= a < |specs| && 0 <= b < |specs| && a != b && specs[a].key == Some(k) && specs[b].key == Some(k)
               && CanDispatchAgain(specs[a]) && CanDispatch(specs[b])
    {
      var schedule, m, n := ARetryLetsAnotherRunIn(specs, a, b, k);
      assert EffectsOfTwo(specs, Play(specs, schedule).trace, m, n, k);
    }
  }

  /** Run `a` calls its adapter twice and makes no observation in between. */
  predicate BlindAt(log: seq<Event>, i: int, j: int) {
    && 0 <= i < j < |log| && log[i].Sent? && log[j].Sent?
    && forall m :: i < m < j ==> !log[m].Seen? && !log[m].PreSeen?
  }

  /** In some interleaving a run dispatches again without having observed anything since its last dispatch. */
  ghost predicate RedispatchesBlindly(specs: seq<RunSpec>, a: nat)
    requires a < |specs|
  {
    exists schedule, i, j :: BlindAt(After(specs, schedule, a).log, i, j)
  }

  predicate NothingSighted(log: seq<Event>) {
    forall m :: 0 <= m < |log| ==> !log[m].Seen? && !log[m].PreSeen?
  }

  /** A run without an observer observes nothing. */
  lemma {:induction false} NoSightings(specs: seq<RunSpec>, schedule: seq<Turn>, a: nat)
    requires a < |specs| && !specs[a].observer
    ensures NothingSighted(After(specs, schedule, a).log)
  {
    if schedule != [] {
      var n := |schedule| - 1;
      NoSightings(specs, schedule[..n], a);
      RunAfterIsOk(specs, schedule[..n], a);
      if schedule[n].run == a {
        var s := Play(specs, schedule[..n]);
        hide Move;
        MoveEffect(specs[a], s.runs[a], s.store, schedule[n].input);
      }
    }
  }

  /**
   * A run dispatches again without an observation in between, in some interleaving, exactly when it has no
   * observer and can dispatch again: it then takes its check of the empty document for one.
   */
  lemma RedispatchesBlindlyIff(specs: seq<RunSpec>, a: nat)
    requires a < |specs|
    ensures RedispatchesBlindly(specs, a) <==> !specs[a].observer && CanDispatchAgain(specs[a])
  {
    if schedule, i, j :| BlindAt(After(specs, schedule, a).log, i, j) {
      RunAfterIsOk(specs, schedule, a);
      DispatchedTwice(specs[a], After(specs, schedule, a), i, j);
      VerifyBeforeRetry(specs, schedule, a, i, j);
    }
    if !specs[a].observer && CanDispatchAgain(specs[a]) {
      var schedule, i, j := BlindSchedule(specs, a);
    }
  }

  lemma LogIsProjection(specs: seq<RunSpec>, schedule: seq<Turn>, a: nat)
    requires a < |specs|
    ensures Project(Play(specs, schedule).trace, a) == After(specs, schedule, a).log
  {
    EveryScheduleIsOk(specs, schedule);
  }

  lemma BlindSchedule(specs: seq<RunSpec>, a: nat) returns (schedule: seq<Turn>, i: nat, j: nat)
    requires a < |specs| && !specs[a].observer && CanDispatchAgain(specs[a])
    ensures BlindAt(After(specs, schedule, a).log, i, j)
  {
    hide Play, Project;
    var m;
    schedule, m := ReachSecondDispatch(specs, a);
    var s := Play(specs, schedule);
    LogIsProjection(specs, schedule, a);
    i, j := PlacesInLog(s.trace, m, |s.trace| - 1, a);
    NoSightings(specs, schedule, a);
  }
}
