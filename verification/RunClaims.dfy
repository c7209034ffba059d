/**
 * How a run ends: its claim is resolved exactly once, its verdict is backed by evidence, and it
 * stops after a bounded number of moves.
 */
module RunClaims {
  import opened Common
  import opened Verdicts
  import opened Contracts
  import opened Idempotency
  import opened Backoff
  import opened Executor
  import opened ExecutorPhases
  import opened Runs
  import opened RunEffects

  predicate IsStoreEvent(e: Event) {
    e.ClaimedKey? || e.StrayClaim? || e.CompletedKey? || e.ReleasedKey?
  }

  predicate IsResolution(e: Event, k: string) {
    (e.CompletedKey? || e.ReleasedKey?) && e.key == k
  }

  /** No store call is recorded between two places of a log. */
  ghost predicate Quiet(log: seq<Event>, from: int, to: int) {
    forall j :: 0 <= from <= j < to <= |log| ==> !IsStoreEvent(log[j])
  }

  /** A claim that was won and then resolved, by the last event and by no other. */
  ghost predicate ResolvedOnce(log: seq<Event>, k: string) {
    && |log| >= 2 && log[0] == ClaimedKey(k)
    && Quiet(log, 1, |log| - 1)
    && IsResolution(log[|log| - 1], k)
  }

  ghost predicate Unresolved(log: seq<Event>, k: string) {
    log != [] && log[0] == ClaimedKey(k) && Quiet(log, 1, |log|)
  }

  /** The store calls of a run: none, one stray claim, a claim still held, or a claim resolved once. */
  ghost predicate ClaimsOk(spec: RunSpec, r: Run) {
    match spec.key
    case None => Quiet(r.log, 0, |r.log|) && !r.holds
    case Some(k) =>
      || (r.log == [] && !r.holds && (r.phase.Start? || r.phase.Polling? || r.phase.Done? || r.phase.Cancelled?))
      || (r.log == [StrayClaim(k)] && r.holds && r.phase.Done?)
      || (Unresolved(r.log, k) && r.holds && !r.phase.Done?)
      || (ResolvedOnce(r.log, k) && !r.holds && r.phase.Done?)
  }

  /** A dispatching run that released its key last heard that nothing had been sent. */
  ghost predicate ReleaseOk(spec: RunSpec, r: Run) {
    forall j :: 0 <= j < |r.log| && r.log[j].ReleasedKey? && spec.dispatches ==>
      j >= 1 && SafeDispatch(r.log[j - 1])
  }

  /** All postconditions verified on `o`, which the run observed in the given attempt. */
  ghost predicate Proven(
    spec: RunSpec, log: seq<Event>, attempt: nat, o: Observation, details: seq<Detail>, v: Verdict)
  {
    && Check(spec, o) == Ok(Evaluation(v, details))
    && if spec.observer then Seen(attempt, o) in log else o == NO_OBSERVATION
  }

  ghost predicate ProvenSomehow(spec: RunSpec, log: seq<Event>, v: Verdict) {
    exists attempt, o, details :: Proven(spec, log, attempt, o, details, v)
  }

  /** What a run stores for its key. */
  ghost predicate StoredOk(spec: RunSpec, r: Run) {
    forall j :: 0 <= j < |r.log| && r.log[j].CompletedKey? ==>
      && !r.log[j].verdict.Duplicate?
      && (r.log[j].verdict.Verified? || r.log[j].verdict.Partial? ==> ProvenSomehow(spec, r.log, r.log[j].verdict))
  }

  /** What a run replies after at least one attempt. */
  ghost predicate ReplyOk(spec: RunSpec, r: Run) {
    r.phase.Done? && r.phase.reply.Returned? && r.phase.reply.receipt.attempts > 0 ==>
      var v, receipt := r.phase.reply.result, r.phase.reply.receipt;
      && receipt.result == v && receipt.attempts == r.attempts && !v.Duplicate?
      && (v.Verified? ==>
           receipt.observation.Some? && Proven(spec, r.log, r.attempts, receipt.observation.value, receipt.details, v))
      && (v.Partial? ==> exists o :: Proven(spec, r.log, r.attempts, o, receipt.details, v))
  }

  /** The waits whose end is logged and is not a store call. */
  predicate Asking(phase: Phase) {
    phase.PreObserving? || phase.Sending? || phase.Dispatching? || phase.Observing?
  }

  /** The facts about one move that the claim invariants need. */
  predicate ClaimStep(spec: RunSpec, r: Run, q: Run, es: seq<Event>) {
    && |es| <= 1 && q.log == r.log + es
    && (es != [] && IsStoreEvent(es[0]) ==> spec.key == Some(es[0].key))
    && (es != [] && es[0].ClaimedKey? ==> r.log == [] && q.holds && !q.phase.Done?)
    && (es != [] && es[0].StrayClaim? ==> r.log == [] && q.holds && q.phase.Done?)
    && (es != [] && (es[0].CompletedKey? || es[0].ReleasedKey?) ==>
          && r.phase.Settling? && r.holds && !q.holds
          && q.phase == Done(ReplyOf(spec, r, r.phase.exit)) && es[0] == Resolution(es[0].key, r.phase.exit))
    && (es == [] || !IsStoreEvent(es[0]) ==>
          && q.holds == r.holds
          && (q.phase.Done? && r.holds ==> q == r)
          && (q.phase.Done? ==> q == r || r.phase.Start? || r.phase.Polling? || (spec.key.None? && r.phase.Settling?))
          && (q.phase.Start? || q.phase.Polling? ==> r.log == []))
    && (es != [] && !IsStoreEvent(es[0]) ==> Asking(r.phase))
    && (r.phase.Done? ==> q == r && es == [])
    && (q.phase.Done? && !r.phase.Done? ==>
          if r.phase.Settling? then q.phase.reply == ReplyOf(spec, r, r.phase.exit) && q.attempts == r.attempts
          else q.phase.reply.Returned? && q.phase.reply == CachedReply(spec, q.phase.reply.result))
  }

  lemma StartClaimStep(spec: RunSpec, r: Run, store: Store, input: Input)
    requires Shape(spec, r) && r.phase.Start? && input.Tick?
    ensures ClaimStep(spec, r, FromStart(spec, r, store).run, NewEvents(spec, r, store, input))
  {
    if spec.key.None? {
      BeginEffect(spec, r);
    } else if spec.key.value !in store {
      BeginEffect(spec, r.(holds := true, log := r.log + [ClaimedKey(spec.key.value)]));
    }
  }

  lemma RespondClaimStep(spec: RunSpec, r: Run, store: Store, input: Input)
    requires Shape(spec, r) && Awaits(spec, r, input)
    ensures ClaimStep(spec, r, Respond(spec, r, store, input).run, NewEvents(spec, r, store, input))
  {
    RespondEffect(spec, r, store, input);
    if r.phase.Start? {
      StartClaimStep(spec, r, store, input);
    }
  }

  lemma MoveClaimStep(spec: RunSpec, r: Run, store: Store, input: Input)
    requires Shape(spec, r)
    ensures ClaimStep(spec, r, Move(spec, r, store, input).run, NewEvents(spec, r, store, input))
  {
    if Awaits(spec, r, input) {
      RespondClaimStep(spec, r, store, input);
    }
  }

  lemma ClaimsStep(spec: RunSpec, r: Run, q: Run, es: seq<Event>)
    requires Shape(spec, r) && Shape(spec, q) && ClaimStep(spec, r, q, es) && ClaimsOk(spec, r)
    ensures ClaimsOk(spec, q)
  {
  }

  lemma ReleaseStep(spec: RunSpec, r: Run, q: Run, es: seq<Event>)
    requires Shape(spec, r) && ClaimStep(spec, r, q, es) && ReleaseOk(spec, r)
    ensures ReleaseOk(spec, q)
  {
  }

  lemma SettledEvidence(spec: RunSpec, r: Run, k: string)
    requires Shape(spec, r) && r.phase.Settling?
    ensures var e := Resolution(k, r.phase.exit);
            e.CompletedKey? && (e.verdict.Verified? || e.verdict.Partial?) ==>
              && LastObservation(spec, r).Some?
              && Proven(spec, r.log, r.attempts, LastObservation(spec, r).value, r.details, e.verdict)
  {
    var o := LastObservation(spec, r);
    assert Undecided(r) || (o.Some? && Backed(r, o.value, Check(spec, o.value)));
  }

  lemma MoreLogKeepsProof(spec: RunSpec, log: seq<Event>, more: seq<Event>, v: Verdict)
    requires ProvenSomehow(spec, log, v)
    ensures ProvenSomehow(spec, log + more, v)
  {
    var attempt, o, details :| Proven(spec, log, attempt, o, details, v);
    assert Proven(spec, log + more, attempt, o, details, v);
  }

  lemma StoredStep(spec: RunSpec, r: Run, q: Run, es: seq<Event>)
    requires Shape(spec, r) && ClaimStep(spec, r, q, es) && StoredOk(spec, r)
    ensures StoredOk(spec, q)
  {
    forall j | 0 <= j < |q.log| && q.log[j].CompletedKey?
      ensures !q.log[j].verdict.Duplicate?
      ensures q.log[j].verdict.Verified? || q.log[j].verdict.Partial? ==> ProvenSomehow(spec, q.log, q.log[j].verdict)
    {
      var v := q.log[j].verdict;
      if j == |r.log| {
        SettledEvidence(spec, r, es[0].key);
        if v.Verified? || v.Partial? {
          assert Proven(spec, r.log, r.attempts, LastObservation(spec, r).value, r.details, v);
        }
      }
      if v.Verified? || v.Partial? {
        MoreLogKeepsProof(spec, r.log, es, v);
      }
    }
  }

  lemma ReplyStep(spec: RunSpec, r: Run, q: Run, es: seq<Event>)
    requires Shape(spec, r) && ClaimStep(spec, r, q, es) && ReplyOk(spec, r)
    ensures ReplyOk(spec, q)
  {
    if q.phase.Done? && !r.phase.Done? && r.phase.Settling? {
      SettledEvidence(spec, r, "");
      if r.phase.exit.Finish? && (r.phase.exit.result.Verified? || r.phase.exit.result.Partial?) {
        var o := LastObservation(spec, r).value;
        assert Proven(spec, r.log, r.attempts, o, r.details, r.phase.exit.result);
        assert Proven(spec, q.log, q.attempts, o, r.details, r.phase.exit.result);
      }
    }
  }

  /** The time spent asleep before the given attempt: one wait after each earlier attempt. */
  function SleptBefore(spec: RunSpec, attempt: nat): nat {
    if attempt <= 1 then 0
    else SleptBefore(spec, attempt - 1) + ExecutorDelay(attempt - 1, spec.contract.recovery)
  }

  lemma {:induction false} SleptIsBounded(spec: RunSpec, attempt: nat)
    ensures SleptBefore(spec, attempt) <= Max(0, attempt - 1) * DelayCap(spec.contract.recovery)
  {
    if attempt > 1 {
      SleptIsBounded(spec, attempt - 1);
      ExecutorDelayIsCappedAndMonotone(attempt - 1, attempt - 1, spec.contract.recovery);
      OneMoreTime(attempt - 2, DelayCap(spec.contract.recovery));
    }
  }

  lemma MoreTimes(m: nat, n: nat, cap: nat)
    requires m <= n
    ensures m * cap <= n * cap
  {
  }

  lemma OneMoreTime(n: nat, cap: nat)
    ensures (n + 1) * cap == n * cap + cap
  {
  }

  /** A run has slept exactly once after each attempt but its latest, where a cancelled one may have begun to. */
  predicate SleptOk(spec: RunSpec, r: Run) {
    if r.phase.Cancelled? && 1 <= r.attempts < AttemptLimit(spec) then
      SleptBefore(spec, r.attempts) <= r.slept <= SleptBefore(spec, r.attempts + 1)
    else r.slept == SleptBefore(spec, r.attempts)
  }

  /** Attempts never exceed the configured maximum, counted as at least one. */
  lemma AttemptsBounded(spec: RunSpec, r: Run)
    requires Shape(spec, r)
    ensures r.attempts <= AttemptLimit(spec)
    ensures r.phase.Sleeping? ==> r.attempts < AttemptLimit(spec)
  {
    if r.attempts > 1 {
      assert Retries(spec, r.attempts - 1);
    }
  }

  lemma SleptStep(spec: RunSpec, r: Run, store: Store, input: Input)
    requires Shape(spec, r) && SleptOk(spec, r)
    ensures SleptOk(spec, Move(spec, r, store, input).run)
  {
    MoveEffect(spec, r, store, input);
    AttemptsBounded(spec, r);
  }

  /** A measure that every effective move lowers. */
  function Rank(spec: RunSpec, r: Run): nat {
    if Waiting(r) && r.attempts <= AttemptLimit(spec) then 7 * (AttemptLimit(spec) - r.attempts) + Order(r.phase) else 0
  }

  /** A run that is answered makes progress toward its end; nothing else changes it. */
  lemma MoveLowersRank(spec: RunSpec, r: Run, store: Store, input: Input)
    requires Shape(spec, r)
    ensures var q := Move(spec, r, store, input).run;
            q == r || Rank(spec, q) < Rank(spec, r)
  {
    var q := Move(spec, r, store, input).run;
    MoveEffect(spec, r, store, input);
    MoveKeepsShape(spec, r, store, input);
    AttemptsBounded(spec, r);
    AttemptsBounded(spec, q);
  }
}
