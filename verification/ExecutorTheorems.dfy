/**
 * What the executor promises, for every number of runs, every interleaving of their moves, every
 * cancellation and every answer of observers and adapters.
 */
module ExecutorTheorems {
  import opened Common
  import opened Verdicts
  import opened Contracts
  import opened Idempotency
  import opened Backoff
  import opened Executor
  import opened Runs
  import opened RunEffects
  import opened RunLogs
  import opened RunClaims
  import opened Interleavings
  import opened Traces

  /** The run `i` after a schedule. */
  function After(specs: seq<RunSpec>, schedule: seq<Turn>, i: nat): Run
    requires i < |specs|
  {
    Play(specs, schedule).runs[i]
  }

  /** No two runs are ever between winning the claim on a key and resolving it. */
  lemma OneHolderPerKey(specs: seq<RunSpec>, schedule: seq<Turn>, i: nat, j: nat, k: string)
    requires Holds(specs, Play(specs, schedule), i, k) && Holds(specs, Play(specs, schedule), j, k)
    ensures i == j
  {
    EveryScheduleIsOk(specs, schedule);
  }

  /** If two runs dispatch on one key, the earlier one released it before the later one claimed it. */
  lemma DispatchersTakeTurns(specs: seq<RunSpec>, schedule: seq<Turn>)
    ensures DispatchesSeparated(specs, Play(specs, schedule).trace)
  {
    EveryScheduleIsOk(specs, schedule);
  }

  lemma {:induction false} PlayMore(specs: seq<RunSpec>, before: seq<Turn>, more: seq<Turn>)
    requires more != []
    ensures var n := |more| - 1;
            Play(specs, before + more) == Take(specs, Play(specs, before + more[..n]), more[n])
  {
    var n := |more| - 1;
    assert before + more == (before + more[..n]) + [more[n]];
    PlayOne(specs, before + more[..n], more[n]);
  }

  /** A completed key stays completed with the same verdict, whatever happens afterwards. */
  lemma {:induction false} CompletedForever(specs: seq<RunSpec>, before: seq<Turn>, more: seq<Turn>, k: string)
    requires var store := Play(specs, before).store; k in store && store[k].Completed?
    ensures var store, later := Play(specs, before).store, Play(specs, before + more).store;
            k in later && later[k] == store[k]
    decreases |more|
  {
    if more == [] {
      assert before + more == before;
    } else {
      var n := |more| - 1;
      CompletedForever(specs, before, more[..n], k);
      PlayMore(specs, before, more);
      EveryScheduleIsOk(specs, before + more[..n]);
      var s, turn := Play(specs, before + more[..n]), more[n];
      if turn.run < |specs| {
        TakeSteps(specs, s, turn);
        CompletedStays(specs, s, Take(specs, s, turn), turn.run,
                       NewEvents(specs[turn.run], s.runs[turn.run], s.store, turn.input), k);
      }
    }
  }

  /** Has the run not yet been answered from the store? */
  predicate NotYetClaiming(r: Run) {
    r.phase.Start? || r.phase.Polling?
  }

  lemma AnswersFromStore(spec: RunSpec, r: Run, store: Store, input: Input, k: string, v: Verdict)
    requires Shape(spec, r) && NotYetClaiming(r) && spec.key == Some(k)
    requires k in store && store[k] == Completed(v)
    ensures var q := Move(spec, r, store, input).run;
            NotYetClaiming(q) || q.phase.Cancelled? || q.phase == Done(CachedReply(spec, v))
  {
  }

  lemma TakeAnswersFromStore(specs: seq<RunSpec>, s: System, turn: Turn, i: nat, k: string, v: Verdict)
    requires |s.runs| == |specs| && RunsOk(specs, s) && i < |specs| && specs[i].key == Some(k)
    requires NotYetClaiming(s.runs[i]) || s.runs[i].phase.Cancelled?
             || s.runs[i].phase == Done(CachedReply(specs[i], v))
    requires k in s.store && s.store[k] == Completed(v)
    ensures var q := Take(specs, s, turn).runs[i];
            NotYetClaiming(q) || q.phase.Cancelled? || q.phase == Done(CachedReply(specs[i], v))
  {
    assert RunOk(specs[i], s.runs[i]);
    if turn.run == i && NotYetClaiming(s.runs[i]) {
      AnswersFromStore(specs[i], s.runs[i], s.store, turn.input, k, v);
    }
  }

  /**
   * Every caller that comes to a completed key, or is still polling it, is answered with the
   * stored verdict and makes no attempt, unless it is cancelled first.
   */
  lemma {:induction false} LateCallersGetTheStoredVerdict(
    specs: seq<RunSpec>, before: seq<Turn>, more: seq<Turn>, i: nat, k: string, v: Verdict)
    requires i < |specs| && specs[i].key == Some(k) && NotYetClaiming(After(specs, before, i))
    requires k in Play(specs, before).store && Play(specs, before).store[k] == Completed(v)
    ensures var r := After(specs, before + more, i);
            NotYetClaiming(r) || r.phase.Cancelled? || r.phase == Done(CachedReply(specs[i], v))
    decreases |more|
  {
    if more == [] {
      assert before + more == before;
    } else {
      var n := |more| - 1;
      LateCallersGetTheStoredVerdict(specs, before, more[..n], i, k, v);
      CompletedForever(specs, before, more[..n], k);
      PlayMore(specs, before, more);
      EveryScheduleIsOk(specs, before + more[..n]);
      var s, turn := Play(specs, before + more[..n]), more[n];
      TakeAnswersFromStore(specs, s, turn, i, k, v);
    }
  }

  /**
   * A run that won its claim and was not cancelled resolved it exactly once: its first store call
   * is the claim, its last event completes or releases the key, and there is no other store call.
   */
  lemma ClaimsAreResolvedExactlyOnce(specs: seq<RunSpec>, schedule: seq<Turn>, i: nat, k: string)
    requires i < |specs| && After(specs, schedule, i).phase.Done? && ClaimedKey(k) in After(specs, schedule, i).log
    ensures specs[i].key == Some(k) && ResolvedOnce(After(specs, schedule, i).log, k)
  {
    RunAfterIsOk(specs, schedule, i);
  }

  lemma EndedRunHoldsOnlyAStrayClaim(spec: RunSpec, r: Run, k: string)
    requires ClaimsOk(spec, r) && r.phase.Done?
    ensures r.holds && spec.key == Some(k) <==> r.log == [StrayClaim(k)]
  {
    if r.log == [StrayClaim(k)] {
      assert IsStoreEvent(r.log[0]);
    }
  }

  lemma RunAfterIsOk(specs: seq<RunSpec>, schedule: seq<Turn>, i: nat)
    requires i < |specs|
    ensures RunOk(specs[i], After(specs, schedule, i))
  {
    EveryScheduleIsOk(specs, schedule);
  }

  lemma InFlightMeansHeld(specs: seq<RunSpec>, schedule: seq<Turn>, k: string)
    ensures var s := Play(specs, schedule);
            (k in s.store && s.store[k].InFlight?) <==> exists i :: Holds(specs, s, i, k)
  {
    EveryScheduleIsOk(specs, schedule);
  }

  /**
   * A dispatching run releases its key only right after its last call of the adapter was answered with
   * one of the three answers that prove nothing was sent.
   */
  lemma ReleasesFollowSafeAnswers(specs: seq<RunSpec>, schedule: seq<Turn>, i: nat, j: nat)
    requires i < |specs| && specs[i].dispatches
    requires var log := After(specs, schedule, i).log; j < |log| && log[j].ReleasedKey?
    ensures var log := After(specs, schedule, i).log;
            j >= 2 && log[j - 1].Replied? && SafeAnswer(log[j - 1].answer) && log[j - 2] == Sent(log[j - 1].attempt)
  {
    RunAfterIsOk(specs, schedule, i);
  }

  /**
   * When every run has ended and none was cancelled, a key is left in flight exactly when some run
   * took it with the second look whose claim result is discarded.
   */
  lemma KeysLeftInFlight(specs: seq<RunSpec>, schedule: seq<Turn>, k: string)
    requires forall i :: 0 <= i < |specs| ==> After(specs, schedule, i).phase.Done?
    ensures var store := Play(specs, schedule).store;
            (k in store && store[k].InFlight?) <==>
            exists i :: 0 <= i < |specs| && After(specs, schedule, i).log == [StrayClaim(k)]
  {
    var s := Play(specs, schedule);
    InFlightMeansHeld(specs, schedule, k);
    forall i | 0 <= i < |specs|
      ensures Holds(specs, s, i, k) <==> After(specs, schedule, i).log == [StrayClaim(k)]
    {
      RunAfterIsOk(specs, schedule, i);
      EndedRunHoldsOnlyAStrayClaim(specs[i], After(specs, schedule, i), k);
    }
  }

  /**
   * Between two dispatches of a run its postconditions were checked and failed: on something it observed in
   * between if it has an observer, and otherwise on the empty document.
   */
  lemma VerifyBeforeRetry(specs: seq<RunSpec>, schedule: seq<Turn>, a: nat, i: nat, j: nat)
    requires a < |specs|
    requires var log := After(specs, schedule, a).log; i < j < |log| && log[i].Sent? && log[j].Sent?
    ensures var log := After(specs, schedule, a).log;
            if specs[a].observer then exists m :: i < m < j && log[m].Seen? && FailsOn(specs[a], log[m].observation)
            else FailsOn(specs[a], NO_OBSERVATION)
  {
    RunAfterIsOk(specs, schedule, a);
    var log := After(specs, schedule, a).log;
    assert log[i].attempt < log[j].attempt;
    if specs[a].observer {
      var m :| i < m < j && FailureSeen(specs[a], log[m]);
    }
  }

  /**
   * Every dispatch of a run with preconditions follows a pre-observation made in the same attempt
   * on which all of them verified.
   */
  lemma PreconditionsHoldAtDispatch(specs: seq<RunSpec>, schedule: seq<Turn>, a: nat, j: nat)
    requires a < |specs| && specs[a].contract.preconditions != []
    requires var log := After(specs, schedule, a).log; j < |log| && log[j].Sent?
    ensures var spec, log := specs[a], After(specs, schedule, a).log;
            exists m :: 0 <= m < j && log[m].PreSeen? && log[m].attempt == log[j].attempt
                        && forall c :: 0 <= c < |spec.contract.preconditions| ==>
                             Verifies(spec.lib, spec.contract.preconditions[c].condition, log[m].observation.state,
                               spec.args)
  {
    RunAfterIsOk(specs, schedule, a);
    var spec, log := specs[a], After(specs, schedule, a).log;
    var m :| 0 <= m < j && PreVerified(spec, log[m], log[j].attempt);
    PreconditionsAllVerify(spec.lib, spec.contract.preconditions, log[m].observation.state, spec.args);
  }

  /**
   * A run makes at most the configured number of attempts, counted as at least one, and sleeps only between
   * them: exactly the configured delays, unless it is cancelled in its sleep.
   */
  lemma AttemptsAndSleepAreBounded(specs: seq<RunSpec>, schedule: seq<Turn>, i: nat)
    requires i < |specs|
    ensures var r := After(specs, schedule, i);
            && r.attempts <= AttemptLimit(specs[i])
            && (!r.phase.Cancelled? ==> r.slept == SleptBefore(specs[i], r.attempts))
            && (!r.phase.Cancelled? ==> r.slept <= Max(0, r.attempts - 1) * DelayCap(specs[i].contract.recovery))
            && r.slept <= (AttemptLimit(specs[i]) - 1) * DelayCap(specs[i].contract.recovery)
  {
    var r := After(specs, schedule, i);
    RunAfterIsOk(specs, schedule, i);
    AttemptsBounded(specs[i], r);
    SleptIsBounded(specs[i], r.attempts);
    var cap := DelayCap(specs[i].contract.recovery);
    MoreTimes(Max(0, r.attempts - 1), AttemptLimit(specs[i]) - 1, cap);
    if r.phase.Cancelled? && 1 <= r.attempts < AttemptLimit(specs[i]) {
      SleptIsBounded(specs[i], r.attempts + 1);
      MoreTimes(r.attempts, AttemptLimit(specs[i]) - 1, cap);
    }
  }

  /**
   * A run that does not verify before retrying, or may not retry, dispatches at most once, although
   * the branch for an unknown verdict does not consult that setting.
   */
  lemma AtMostOneDispatchWithoutRetry(specs: seq<RunSpec>, schedule: seq<Turn>, a: nat, i: nat, j: nat)
    requires a < |specs| && !MayRetry(specs[a])
    requires var log := After(specs, schedule, a).log;
             i < |log| && j < |log| && log[i].Sent? && log[j].Sent?
    ensures i == j
  {
    var r := After(specs, schedule, a);
    RunAfterIsOk(specs, schedule, a);
    assert r.attempts <= 1;
  }

  lemma StoredVerdicts(spec: RunSpec, r: Run, k: string, v: Verdict)
    requires StoredOk(spec, r) && CompletedKey(k, v) in r.log
    ensures !v.Duplicate?
    ensures v.Verified? ==> ProvenSomehow(spec, r.log, v)
  {
    var j :| 0 <= j < |r.log| && r.log[j] == CompletedKey(k, v);
  }

  lemma StoredByARun(specs: seq<RunSpec>, schedule: seq<Turn>, k: string) returns (j: nat)
    requires k in Play(specs, schedule).store && Play(specs, schedule).store[k].Completed?
    ensures CompletedBy(specs, Play(specs, schedule), j, k, Play(specs, schedule).store[k].result)
  {
    EveryScheduleIsOk(specs, schedule);
    j :| CompletedBy(specs, Play(specs, schedule), j, k, Play(specs, schedule).store[k].result);
  }

  /** No store entry ever says `Duplicate`. */
  lemma DuplicateIsNeverStored(specs: seq<RunSpec>, schedule: seq<Turn>, k: string)
    requires k in Play(specs, schedule).store
    ensures Play(specs, schedule).store[k] != Completed(Duplicate)
  {
    if Play(specs, schedule).store[k].Completed? {
      var j := StoredByARun(specs, schedule, k);
      RunAfterIsOk(specs, schedule, j);
      StoredVerdicts(specs[j], After(specs, schedule, j), k, Play(specs, schedule).store[k].result);
    }
  }

  /** No exit is ever taken because the lifecycle refused a transition. */
  lemma LifecycleNeverRefuses(specs: seq<RunSpec>, schedule: seq<Turn>, i: nat)
    requires i < |specs|
    requires var phase := After(specs, schedule, i).phase; phase.Settling? && phase.exit.AbortRun?
    ensures !After(specs, schedule, i).phase.exit.byLifecycle
  {
    RunAfterIsOk(specs, schedule, i);
  }

  /** A check that found nothing failing lists every postcondition as passed, in order, truthfully. */
  lemma VerifiedMeansAllPassed(spec: RunSpec, o: Observation, details: seq<Detail>)
    requires Check(spec, o) == Ok(Evaluation(Verified, details))
    ensures |details| == |spec.contract.postconditions|
    ensures forall i :: 0 <= i < |details| ==>
              && details[i].condition == spec.contract.postconditions[i].condition && details[i].passed
              && Verifies(spec.lib, details[i].condition, o.state, spec.args)
  {
    PostconditionVerdict(spec.lib, spec.contract, o.state, spec.args);
  }

  /**
   * No false `Verified`: a verified reply after at least one attempt carries the observation the
   * run made in that attempt, and one passed entry per postcondition, each true on that observation.
   */
  lemma VerifiedRepliesAreTrue(specs: seq<RunSpec>, schedule: seq<Turn>, i: nat)
    requires i < |specs|
    requires var r := After(specs, schedule, i);
             r.phase.Done? && r.phase.reply.Returned? && r.phase.reply.result.Verified?
               && r.phase.reply.receipt.attempts > 0
    ensures var spec, r := specs[i], After(specs, schedule, i);
            var receipt := r.phase.reply.receipt;
            && receipt.result.Verified? && receipt.observation.Some?
            && (if spec.observer then Seen(receipt.attempts, receipt.observation.value) in r.log
                else receipt.observation.value == NO_OBSERVATION)
            && |receipt.details| == |spec.contract.postconditions|
            && forall c :: 0 <= c < |receipt.details| ==>
                 && receipt.details[c].condition == spec.contract.postconditions[c].condition
                      && receipt.details[c].passed
                 && Verifies(spec.lib, receipt.details[c].condition, receipt.observation.value.state, spec.args)
  {
    var r := After(specs, schedule, i);
    RunAfterIsOk(specs, schedule, i);
    VerifiedMeansAllPassed(specs[i], r.phase.reply.receipt.observation.value, r.phase.reply.receipt.details);
  }

  /**
   * A stored `Verified` goes back to a run on the same key that completed it, after a check of an
   * observation of its own on which every one of its postconditions verified.
   */
  lemma StoredVerifiedIsTrue(specs: seq<RunSpec>, schedule: seq<Turn>, k: string)
    requires k in Play(specs, schedule).store && Play(specs, schedule).store[k] == Completed(Verified)
    ensures exists j, o ::
              && 0 <= j < |specs| && specs[j].key == Some(k)
              && CompletedKey(k, Verified) in After(specs, schedule, j).log
              && (if specs[j].observer then exists n :: Seen(n, o) in After(specs, schedule, j).log
                   else o == NO_OBSERVATION)
              && NoneFails(specs[j].lib, specs[j].contract.postconditions, o.state, specs[j].args)
  {
    var j := StoredByARun(specs, schedule, k);
    RunAfterIsOk(specs, schedule, j);
    StoredVerdicts(specs[j], After(specs, schedule, j), k, Verified);
    var o := ProofNamesAnObservation(specs[j], After(specs, schedule, j).log);
  }

  lemma ProofNamesAnObservation(spec: RunSpec, log: seq<Event>) returns (o: Observation)
    requires ProvenSomehow(spec, log, Verified)
    ensures if spec.observer then exists n :: Seen(n, o) in log else o == NO_OBSERVATION
    ensures NoneFails(spec.lib, spec.contract.postconditions, o.state, spec.args)
  {
    var attempt, p, details :| Proven(spec, log, attempt, p, details, Verified);
    o := p;
    PostconditionVerdict(spec.lib, spec.contract, o.state, spec.args);
    assert spec.observer ==> Seen(attempt, o) in log;
  }

  /** Was the reply taken from the store? A reply that made an attempt counts it. */
  predicate Cached(r: Run) {
    r.phase.Done? && r.phase.reply.Returned? && r.phase.reply.receipt.attempts == 0 && !r.phase.reply.result.Duplicate?
  }

  lemma StartCaches(spec: RunSpec, r: Run, store: Store)
    requires Shape(spec, r) && r.phase.Start? && Cached(FromStart(spec, r, store).run)
    ensures var q := FromStart(spec, r, store).run;
            spec.key.Some? && spec.key.value in store && store[spec.key.value] == Completed(q.phase.reply.result)
  {
    if spec.key.None? {
      BeginEffect(spec, r);
    } else if spec.key.value !in store {
      BeginEffect(spec, r.(holds := true, log := r.log + [ClaimedKey(spec.key.value)]));
    }
  }

  lemma CachedNow(spec: RunSpec, r: Run, store: Store, input: Input)
    requires Shape(spec, r) && !r.phase.Done? && Cached(Move(spec, r, store, input).run)
    ensures var q := Move(spec, r, store, input).run;
            spec.key.Some? && spec.key.value in store && store[spec.key.value] == Completed(q.phase.reply.result)
  {
    MoveEffect(spec, r, store, input);
    assert Awaits(spec, r, input);
    if r.phase.Start? {
      StartCaches(spec, r, store);
    }
  }

  /** A verdict returned without an attempt is the one stored for the key, then and ever after. */
  lemma {:induction false} CachedRepliesAreStored(specs: seq<RunSpec>, schedule: seq<Turn>, i: nat)
    requires i < |specs| && Cached(After(specs, schedule, i))
    ensures var r, store := After(specs, schedule, i), Play(specs, schedule).store;
            specs[i].key.Some? && specs[i].key.value in store
              && store[specs[i].key.value] == Completed(r.phase.reply.result)
  {
    if schedule != [] {
      var n := |schedule| - 1;
      var before, turn := schedule[..n], schedule[n];
      var s := Play(specs, before);
      RunAfterIsOk(specs, before, i);
      if s.runs[i].phase.Done? {
        CachedRepliesAreStored(specs, before, i);
      } else {
        CachedNow(specs[i], s.runs[i], s.store, turn.input);
      }
      CompletedForever(specs, before, [turn], specs[i].key.value);
      assert before + [turn] == schedule;
    }
  }

  /**
   * No false `Verified` from the store either: a verified reply without an attempt goes back to a
   * run on the same key whose own postconditions all verified on an observation of its own.
   */
  lemma CachedVerifiedRepliesAreTrue(specs: seq<RunSpec>, schedule: seq<Turn>, i: nat)
    requires i < |specs| && Cached(After(specs, schedule, i)) && After(specs, schedule, i).phase.reply.result.Verified?
    ensures exists j, o ::
              && 0 <= j < |specs| && specs[j].key == specs[i].key
              && (if specs[j].observer then exists n :: Seen(n, o) in After(specs, schedule, j).log
                   else o == NO_OBSERVATION)
              && NoneFails(specs[j].lib, specs[j].contract.postconditions, o.state, specs[j].args)
  {
    CachedRepliesAreStored(specs, schedule, i);
    StoredVerifiedIsTrue(specs, schedule, specs[i].key.value);
  }

  /** How many turns of a schedule changed the run they were given to. */
  function Effective(specs: seq<RunSpec>, schedule: seq<Turn>, i: nat): nat
    requires i < |specs|
  {
    if schedule == [] then 0
    else
      var n := |schedule| - 1;
      Effective(specs, schedule[..n], i) + if After(specs, schedule, i) != After(specs, schedule[..n], i) then 1 else 0
  }

  /** Every run terminates: it changes at most `7 * limit + 7` times in any schedule. */
  lemma {:induction false} RunsTerminate(specs: seq<RunSpec>, schedule: seq<Turn>, i: nat)
    requires i < |specs|
    ensures Effective(specs, schedule, i) + Rank(specs[i], After(specs, schedule, i)) <= 7 * AttemptLimit(specs[i]) + 7
  {
    if schedule != [] {
      var n := |schedule| - 1;
      RunsTerminate(specs, schedule[..n], i);
      EveryScheduleIsOk(specs, schedule[..n]);
      var s, turn := Play(specs, schedule[..n]), schedule[n];
      assert RunOk(specs[i], s.runs[i]);
      if turn.run == i {
        MoveLowersRank(specs[i], s.runs[i], s.store, turn.input);
      }
    }
  }
}
