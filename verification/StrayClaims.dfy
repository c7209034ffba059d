/**
 * The one way an uncancelled caller leaves a key in flight: its second look takes the claim and discards
 * the answer (crates/agentverify-runtime/src/executor.rs).
 */
module StrayClaims {
  import opened Common
  import opened Verdicts
  import opened Idempotency
  import opened Executor
  import opened ExecutorPhases
  import opened Runs
  import opened RunEffects
  import opened Interleavings
  import opened Traces
  import opened ExecutorTheorems
  import opened KeySchedules

  /** Past its preconditions a run's preconditions can be met; about to release, it can release. */
  ghost predicate PhasePassed(spec: RunSpec, phase: Phase) {
    && (phase.Sending? || phase.Dispatching? || phase.Observing? || phase.Sleeping? ==> CanPass(spec))
    && (Releases(phase) ==> CanRelease(spec))
  }

  /** What the log of a run tells about its configuration. */
  ghost predicate PassedOk(spec: RunSpec, r: Run) {
    && PhasePassed(spec, r.phase) && (r.attempts > 1 ==> CanPass(spec))
    && (forall j :: 0 <= j < |r.log| && r.log[j].ReleasedKey? ==> CanRelease(spec))
    && (forall j :: 0 <= j < |r.log| && r.log[j].StrayClaim? ==> spec.dispatches)
  }

  lemma AuthorizedPassed(spec: RunSpec, attempts: nat)
    requires CanPass(spec)
    ensures PhasePassed(spec, AuthorizedPhase(spec, attempts, Blind(spec)))
  {
  }

  lemma BegunPassed(spec: RunSpec, r: Run)
    ensures PhasePassed(spec, BeginAttempt(spec, r, Blind(spec)).phase)
  {
    hide BeginAttempt;
    BeginAttemptErased(spec, r, Blind(spec));
    if spec.contract.preconditions == [] {
      AuthorizedPassed(spec, r.attempts + 1);
    }
  }

  lemma PreSightPassed(spec: RunSpec, r: Run, a: Sighting)
    requires Shape(spec, r) && r.phase.PreObserving?
    ensures PhasePassed(spec, PreSight(spec, r, a).phase)
  {
    hide AfterPreObserving;
    AfterPreObservingErased(spec, r, a, PreSightCheck(spec, a), Blind(spec));
    if a.Sighted? && PreCheck(spec, a.observation).Ok? {
      AuthorizedPassed(spec, r.attempts);
    }
  }

  lemma DispatchPassed(spec: RunSpec, r: Run, a: Answer)
    requires Shape(spec, r) && r.phase.Dispatching? && CanPass(spec)
    ensures PhasePassed(spec, AfterDispatching(spec, r, a, Blind(spec)).phase)
  {
    hide AfterDispatching;
    AfterDispatchingErased(spec, r, a, Blind(spec));
  }

  lemma SightPassed(spec: RunSpec, r: Run, a: Sighting)
    requires Shape(spec, r) && r.phase.Observing? && CanPass(spec)
    ensures PhasePassed(spec, Sight(spec, r, a).phase)
  {
    hide AfterObserving;
    AfterObservingErased(spec, r, a, SightCheck(spec, a));
  }

  lemma StartPassed(spec: RunSpec, r: Run, store: Store)
    ensures PhasePassed(spec, FromStart(spec, r, store).run.phase)
  {
    hide BeginAttempt;
    BegunPassed(spec, r);
    if spec.key.Some? {
      BegunPassed(spec, r.(holds := true, log := r.log + [ClaimedKey(spec.key.value)]));
    }
  }

  lemma RespondPassed(spec: RunSpec, r: Run, store: Store, input: Input)
    requires Shape(spec, r) && PhasePassed(spec, r.phase) && Awaits(spec, r, input)
    ensures PhasePassed(spec, Respond(spec, r, store, input).run.phase)
  {
    hide BeginAttempt, AfterPreObserving, AfterDispatching, AfterObserving, PhasePassed;
    match r.phase
    case Start => StartPassed(spec, r, store);
    case Polling => DonePassed(spec, FromPolling(spec, r, store).run.phase);
    case PreObserving => PreSightPassed(spec, r, input.sighting);
    case Sending => SentPassed(spec, r);
    case Dispatching =>
      SentPassed(spec, r);
      DispatchPassed(spec, r, input.answer);
    case Observing =>
      SentPassed(spec, r);
      SightPassed(spec, r, input.sighting);
    case Sleeping => BegunPassed(spec, Wake(spec, r));
    case Settling(exit) => DonePassed(spec, FromSettling(spec, r, exit, store).run.phase);
  }

  lemma DonePassed(spec: RunSpec, phase: Phase)
    requires phase.Done? || phase.Cancelled?
    ensures PhasePassed(spec, phase)
  {
  }

  lemma SentPassed(spec: RunSpec, r: Run)
    requires PhasePassed(spec, r.phase) && (r.phase.Sending? || r.phase.Dispatching? || r.phase.Observing?)
    ensures CanPass(spec) && PhasePassed(spec, Send(r).phase)
  {
  }

  lemma MovePassed(spec: RunSpec, r: Run, store: Store, input: Input)
    requires Shape(spec, r) && PassedOk(spec, r)
    ensures PassedOk(spec, Move(spec, r, store, input).run)
  {
    hide BeginAttempt, AfterPreObserving, AfterDispatching, AfterObserving, PhasePassed;
    MoveEffect(spec, r, store, input);
    ReleasingPassed(spec, r.phase);
    if input.Cancel? && Waiting(r) {
      DonePassed(spec, Cancelled);
    } else if Awaits(spec, r, input) {
      RespondPassed(spec, r, store, input);
    }
  }

  lemma ReleasingPassed(spec: RunSpec, phase: Phase)
    requires PhasePassed(spec, phase)
    ensures (Releases(phase) ==> CanRelease(spec)) && (phase.Sleeping? ==> CanPass(spec))
  {
  }

  lemma {:induction false} PassedAfter(specs: seq<RunSpec>, schedule: seq<Turn>, i: nat)
    requires i < |specs|
    ensures PassedOk(specs[i], After(specs, schedule, i))
  {
    if schedule != [] {
      var n := |schedule| - 1;
      PassedAfter(specs, schedule[..n], i);
      RunAfterIsOk(specs, schedule[..n], i);
      if schedule[n].run == i {
        var s := Play(specs, schedule[..n]);
        MovePassed(specs[i], s.runs[i], s.store, schedule[n].input);
      }
    }
  }

  /** Some run on the key has released it. */
  ghost predicate SomeoneReleased(specs: seq<RunSpec>, s: System, k: string)
    requires |s.runs| == |specs|
  {
    exists a :: ReleasedBy(specs, s, a, k)
  }

  predicate ReleasedBy(specs: seq<RunSpec>, s: System, a: int, k: string)
    requires |s.runs| == |specs|
  {
    0 <= a < |specs| && specs[a].key == Some(k) && ReleasedKey(k) in s.runs[a].log
  }

  /** A polled key is occupied until someone releases it, and a stray claim comes after that. */
  ghost predicate PollersWait(specs: seq<RunSpec>, s: System)
    requires |s.runs| == |specs|
  {
    forall b, k :: 0 <= b < |specs| && specs[b].key == Some(k) ==>
      && (s.runs[b].phase.Polling? ==> k in s.store || SomeoneReleased(specs, s, k))
      && (StrayClaim(k) in s.runs[b].log ==> SomeoneReleased(specs, s, k))
  }

  /** What one move has to do with polling. */
  lemma PollStep(spec: RunSpec, r: Run, store: Store, input: Input, k: string)
    requires Shape(spec, r) && spec.key == Some(k)
    ensures var q, es := Move(spec, r, store, input).run, NewEvents(spec, r, store, input);
            && (q.phase.Polling? ==> r.phase.Polling? || k in store)
            && (StrayClaim(k) in es ==> r.phase.Polling? && k !in store)
  {
    hide BeginAttempt, AfterPreObserving, AfterDispatching, AfterObserving;
    MoveEffect(spec, r, store, input);
    MoveKeepsShape(spec, r, store, input);
    if r.phase.Start? {
      BeginEffect(spec, r.(holds := true, log := r.log + [ClaimedKey(k)]));
    }
  }

  lemma ReleasedOnce(specs: seq<RunSpec>, s: System, t: System, i: nat, es: seq<Event>, k: string)
    requires |s.runs| == |specs| && |t.runs| == |specs| && Stepped(specs, s, t, i, es)
    ensures SomeoneReleased(specs, s, k) ==> SomeoneReleased(specs, t, k)
    ensures k in s.store && k !in t.store ==> SomeoneReleased(specs, t, k)
  {
    if a :| ReleasedBy(specs, s, a, k) {
      assert ReleasedBy(specs, t, a, k);
    }
    if k in s.store && k !in t.store {
      assert es == [ReleasedKey(k)];
      assert t.runs[i].log[|s.runs[i].log|] == ReleasedKey(k);
      assert ReleasedBy(specs, t, i, k);
    }
  }

  lemma PollersStep(specs: seq<RunSpec>, s: System, turn: Turn)
    requires |s.runs| == |specs| && RunsOk(specs, s) && PollersWait(specs, s) && turn.run < |specs|
    ensures PollersWait(specs, Take(specs, s, turn))
  {
    hide Move, NewEvents, RunOk;
    var t, i := Take(specs, s, turn), turn.run;
    var es := NewEvents(specs[i], s.runs[i], s.store, turn.input);
    TakeSteps(specs, s, turn);
    assert Shape(specs[i], s.runs[i]) by { OkHasShape(specs[i], s.runs[i]); }
    forall b, k | 0 <= b < |specs| && specs[b].key == Some(k)
      ensures t.runs[b].phase.Polling? ==> k in t.store || SomeoneReleased(specs, t, k)
      ensures StrayClaim(k) in t.runs[b].log ==> SomeoneReleased(specs, t, k)
    {
      ReleasedOnce(specs, s, t, i, es, k);
      if b == i {
        PollStep(specs[i], s.runs[i], s.store, turn.input, k);
      }
    }
  }

  lemma OkHasShape(spec: RunSpec, r: Run)
    requires RunOk(spec, r)
    ensures Shape(spec, r)
  {
  }

  lemma {:induction false} PollersAlwaysWait(specs: seq<RunSpec>, schedule: seq<Turn>)
    ensures PollersWait(specs, Play(specs, schedule))
  {
    if schedule != [] {
      var n := |schedule| - 1;
      PollersAlwaysWait(specs, schedule[..n]);
      EveryScheduleIsOk(specs, schedule[..n]);
      if schedule[n].run < |specs| {
        PollersStep(specs, Play(specs, schedule[..n]), schedule[n]);
      }
    }
  }

  /** A run has ended, was not cancelled, and its claim on the key stands. */
  predicate EndedHolding(specs: seq<RunSpec>, s: System, b: nat, k: string)
    requires |s.runs| == |specs|
  {
    Holds(specs, s, b, k) && s.runs[b].phase.Done?
  }

  /** In some interleaving an uncancelled run ends and leaves the key in flight. */
  ghost predicate CanBeLeftInFlight(specs: seq<RunSpec>, k: string) {
    exists schedule, b :: EndedHolding(specs, Play(specs, schedule), b, k)
  }

  /** A caller that polls and another that can release. */
  ghost predicate PollerAndReleaser(specs: seq<RunSpec>, a: int, b: int, k: string) {
    && 0 <= a < |specs| && 0 <= b < |specs| && a != b && specs[a].key == Some(k) && specs[b].key == Some(k)
    && specs[b].dispatches && CanRelease(specs[a])
  }

  lemma LeftInFlightNeedsBoth(specs: seq<RunSpec>, schedule: seq<Turn>, b: nat, k: string)
    requires EndedHolding(specs, Play(specs, schedule), b, k)
    ensures exists a :: PollerAndReleaser(specs, a, b, k)
  {
    var s := Play(specs, schedule);
    RunAfterIsOk(specs, schedule, b);
    EndedRunHoldsOnlyAStrayClaim(specs[b], s.runs[b], k);
    assert s.runs[b].log[0] == StrayClaim(k);
    PassedAfter(specs, schedule, b);
    PollersAlwaysWait(specs, schedule);
    var a :| ReleasedBy(specs, s, a, k);
    PassedAfter(specs, schedule, a);
    assert PollerAndReleaser(specs, a, b, k);
  }

  /** A run that can release its key, brought to do so from the top of an attempt. */
  lemma ReachRelease(specs: seq<RunSpec>, schedule: seq<Turn>, i: nat) returns (longer: seq<Turn>)
    requires i < |specs| && CanRelease(specs[i])
    requires var r := Play(specs, schedule).runs[i]; r.phase == AttemptPhase(specs[i], r.attempts, Blind(specs[i]))
    ensures var s, t := Play(specs, schedule), Play(specs, longer);
            Releases(t.runs[i].phase) && t.store == s.store && OthersAlike(specs, s, t, i)
  {
    hide AfterObserving, AfterDispatching;
    var spec := specs[i];
    longer := ReachPassed(specs, schedule, i);
    if spec.dispatches {
      Solo(specs, longer, i, Tick);
      longer := ReachRejection(specs, longer + [Turn(i, Tick)], i);
    } else if spec.observer {
      var t := Play(specs, longer);
      Solo(specs, longer, i, ObserverReply(ObserverTimedOut));
      AfterObservingErased(spec, t.runs[i], ObserverTimedOut, SightCheck(spec, ObserverTimedOut));
      longer := longer + [Turn(i, ObserverReply(ObserverTimedOut))];
    }
  }

  /** One run holds the key, in its first attempt, and another is between its two looks at it. */
  lemma ReachPolling(specs: seq<RunSpec>, a: nat, b: nat, k: string) returns (schedule: seq<Turn>)
    requires a < |specs| && b < |specs| && a != b && specs[a].key == Some(k) && specs[b].key == Some(k)
             && specs[b].dispatches
    ensures var s := Play(specs, schedule);
            && s.runs[a].phase == AttemptPhase(specs[a], s.runs[a].attempts, Blind(specs[a]))
            && s.runs[b].phase.Polling? && s.runs[b].log == []
  {
    hide BeginAttempt;
    Solo(specs, [], a, Tick);
    ClaimBegins(specs[a], FRESH, map[], k);
    var one := [] + [Turn(a, Tick)];
    assert Play(specs, one).runs[b] == FRESH;
    Solo(specs, one, b, Tick);
    schedule := one + [Turn(b, Tick)];
  }

  /**
   * The second look discards its claim result: the holder releases the key, and the poller claims it and
   * answers `Duplicate`. Neither is cancelled, and the key is left in flight.
   */
  lemma DiscardedClaimLeavesKeyInFlight(specs: seq<RunSpec>, a: nat, b: nat, k: string) returns (schedule: seq<Turn>)
    requires PollerAndReleaser(specs, a, b, k)
    ensures var s := Play(specs, schedule);
            && s.runs[a].phase.Done? && s.runs[b].phase == Done(CachedReply(specs[b], Duplicate))
            && k in s.store && s.store[k].InFlight? && s.runs[b].log == [StrayClaim(k)]
            && EndedHolding(specs, s, b, k)
  {
    var polling := ReachPolling(specs, a, b, k);
    var leaving := ReachRelease(specs, polling, a);
    ReleaseNow(specs, leaving, a, k);
    var released := leaving + [Turn(a, Tick)];
    Solo(specs, released, b, Tick);
    schedule := released + [Turn(b, Tick)];
  }

  /**
   * An uncancelled caller can leave the key in flight exactly when a caller that polls it, which only a
   * real execution does, and another that can release it meet on it.
   */
  lemma CanBeLeftInFlightIff(specs: seq<RunSpec>, k: string)
    ensures CanBeLeftInFlight(specs, k) <==> exists a, b :: PollerAndReleaser(specs, a, b, k)
  {
    if schedule, b :| EndedHolding(specs, Play(specs, schedule), b, k) {
      LeftInFlightNeedsBoth(specs, schedule, b, k);
    }
    if a, b :| PollerAndReleaser(specs, a, b, k) {
      var schedule := DiscardedClaimLeavesKeyInFlight(specs, a, b, k);
      assert EndedHolding(specs, Play(specs, schedule), b, k);
    }
  }

  lemma {:induction false} EndedStays(specs: seq<RunSpec>, before: seq<Turn>, more: seq<Turn>, i: nat)
    requires i < |specs| && !Waiting(After(specs, before, i))
    ensures After(specs, before + more, i) == After(specs, before, i)
    decreases |more|
  {
    if more == [] {
      assert before + more == before;
    } else {
      EndedStays(specs, before, more[..|more| - 1], i);
      PlayMore(specs, before, more);
    }
  }

  /**
   * A key held by a run that has ended, be it by a stray claim or because the run was cancelled, stays in
   * flight whatever happens next: in particular a call of the adapter that was cut off is never repeated.
   */
  lemma EndedHolderKeepsItsKey(specs: seq<RunSpec>, before: seq<Turn>, more: seq<Turn>, b: nat, k: string)
    requires b < |specs| && Holds(specs, Play(specs, before), b, k) && !Waiting(After(specs, before, b))
    ensures var store := Play(specs, before + more).store; k in store && store[k].InFlight?
  {
    EndedStays(specs, before, more, b);
    InFlightMeansHeld(specs, before + more, k);
    assert Holds(specs, Play(specs, before + more), b, k);
  }

  /** A run cancelled during a call of its adapter holds its key. */
  lemma CutOffCallHoldsItsKey(specs: seq<RunSpec>, schedule: seq<Turn>, i: nat, k: string)
    requires i < |specs| && specs[i].key == Some(k) && After(specs, schedule, i).phase.Cancelled?
    requires var log := After(specs, schedule, i).log; log != [] && log[|log| - 1].Sent?
    ensures Holds(specs, Play(specs, schedule), i, k)
  {
    RunAfterIsOk(specs, schedule, i);
  }

  /** A turn while a run that has ended holds the key is no call on it. */
  lemma NoCallNow(specs: seq<RunSpec>, s: System, turn: Turn, b: nat, k: string)
    requires |s.runs| == |specs| && SystemOk(specs, s) && Holds(specs, s, b, k) && !Waiting(s.runs[b])
    ensures var t := Take(specs, s, turn);
            && s.trace <= t.trace && |t.trace| <= |s.trace| + 1
            && (|t.trace| > |s.trace| ==> !DispatchAt(specs, t.trace, |s.trace|, k))
  {
    if turn.run < |specs| {
      var i, t := turn.run, Take(specs, s, turn);
      var es := NewEvents(specs[i], s.runs[i], s.store, turn.input);
      TakeSteps(specs, s, turn);
      if es != [] && es[0].Sent? && specs[i].key == Some(k) {
        DispatcherHolds(specs, s, t, i, es, k);
        assert false;
      }
    }
  }

  lemma StillHolds(specs: seq<RunSpec>, before: seq<Turn>, more: seq<Turn>, b: nat, k: string)
    requires b < |specs| && Holds(specs, Play(specs, before), b, k) && !Waiting(After(specs, before, b))
    ensures var s := Play(specs, before + more); SystemOk(specs, s) && Holds(specs, s, b, k) && !Waiting(s.runs[b])
  {
    hide Play, SystemOk;
    EndedStays(specs, before, more, b);
    EveryScheduleIsOk(specs, before + more);
  }

  /** From a place on a trace has no call on the key. */
  ghost predicate NoCallFrom(specs: seq<RunSpec>, trace: seq<Stamp>, n: nat, k: string) {
    n <= |trace| && forall j :: j >= n ==> !DispatchAt(specs, trace, j, k)
  }

  lemma NoCallYet(specs: seq<RunSpec>, trace: seq<Stamp>, k: string)
    ensures NoCallFrom(specs, trace, |trace|, k)
  {
  }

  lemma NoCallStill(specs: seq<RunSpec>, trace: seq<Stamp>, longer: seq<Stamp>, n: nat, k: string)
    requires NoCallFrom(specs, trace, n, k) && trace <= longer && |longer| <= |trace| + 1
    requires |longer| > |trace| ==> !DispatchAt(specs, longer, |trace|, k)
    ensures NoCallFrom(specs, longer, n, k)
  {
    forall j | j >= n ensures !DispatchAt(specs, longer, j, k) {
      if j < |trace| {
        assert longer[j] == trace[j];
        assert !DispatchAt(specs, trace, j, k);
      }
    }
  }

  /**
   * Once a run has ended and holds the key, cut off in a call of its adapter or not, nobody calls an adapter
   * on that key again, whatever follows.
   */
  lemma {:induction false} NoCallAfterwards(specs: seq<RunSpec>, before: seq<Turn>, more: seq<Turn>, b: nat, k: string)
    requires b < |specs| && Holds(specs, Play(specs, before), b, k) && !Waiting(After(specs, before, b))
    ensures NoCallFrom(specs, Play(specs, before + more).trace, |Play(specs, before).trace|, k)
    decreases |more|
  {
    hide Play, Take, SystemOk, NoCallFrom, DispatchAt, Waiting;
    if more == [] {
      assert before + more == before;
      NoCallYet(specs, Play(specs, before).trace, k);
    } else {
      var n := |more| - 1;
      var s := Play(specs, before + more[..n]);
      NoCallAfterwards(specs, before, more[..n], b, k);
      StillHolds(specs, before, more[..n], b, k);
      PlayMore(specs, before, more);
      NoCallNow(specs, s, more[n], b, k);
      NoCallStill(specs, s.trace, Take(specs, s, more[n]).trace, |Play(specs, before).trace|, k);
    }
  }
}
