/** Verify-before-retry: what the log of a run looks like after any number of moves. */
module RunLogs {
  import opened Idempotency
  import opened Executor
  import opened ExecutorPhases
  import opened Runs
  import opened RunEffects

  /** How one move extends the log, in terms of the two run states alone. */
  predicate LogStep(spec: RunSpec, r: Run, q: Run, es: seq<Event>) {
    && |es| <= 1 && q.log == r.log + es
    && r.attempts <= q.attempts <= r.attempts + 1
    && (es != [] && es[0].Sent? ==>
          r.phase.Sending? && es[0].attempt == r.attempts == q.attempts && q.phase.Dispatching?)
    && (es != [] && es[0].Replied? ==>
          && r.phase.Dispatching? && es[0].attempt == r.attempts == q.attempts
          && !q.phase.Sending? && !q.phase.PreObserving? && (q.phase.Sleeping? ==> !spec.observer))
    && (q.phase.Dispatching? ==> r.phase.Dispatching? || (r.phase.Sending? && es != [] && es[0].Sent?))
    && (q.phase.Sending? ==>
          || (r.phase.Sending? && es == [] && q.attempts == r.attempts)
          || ((r.phase.Start? || r.phase.Sleeping?) && q.attempts == r.attempts + 1
               && spec.contract.preconditions == [])
          || (r.phase.PreObserving? && q.attempts == r.attempts && es != [] && PreVerified(spec, es[0], r.attempts)))
    && (q.phase.PreObserving? ==>
          || (r.phase.PreObserving? && es == [] && q.attempts == r.attempts)
          || ((r.phase.Start? || r.phase.Sleeping?) && q.attempts == r.attempts + 1))
    && (q.phase.Sleeping? && spec.observer ==>
          (r.phase.Sleeping? && es == []) || (es != [] && FailureSeen(spec, es[0])))
  }

  /** A pre-observation of the given attempt on which every precondition verified. */
  predicate PreVerified(spec: RunSpec, e: Event, attempt: nat) {
    spec.observer && e.PreSeen? && e.attempt == attempt && PreCheck(spec, e.observation).Ok?
  }

  /** An observation on which the postconditions evaluated to `Failed`. */
  predicate FailureSeen(spec: RunSpec, e: Event) {
    e.Seen? && FailsOn(spec, e.observation)
  }

  lemma MoveLogStep(spec: RunSpec, r: Run, store: Store, input: Input)
    requires Shape(spec, r)
    ensures LogStep(spec, r, Move(spec, r, store, input).run, NewEvents(spec, r, store, input))
  {
    MoveEffect(spec, r, store, input);
    var m := Move(spec, r, store, input);
    MoveKeepsShape(spec, r, store, input);
    if r.phase.Dispatching? && Awaits(spec, r, input) {
      AfterDispatchingErased(spec, r, input.answer, Blind(spec));
      ConcludedShape(spec, r.attempts, NO_OBSERVATION);
    }
  }

  /** About to dispatch: between attempts, or before the adapter was called in this one. */
  predicate Ahead(r: Run) {
    r.phase.Start? || r.phase.Polling? || r.phase.Sleeping? || r.phase.PreObserving? || r.phase.Sending?
  }

  /** Each attempt dispatches at most once, attempts are numbered in order, and a simulated run never dispatches. */
  ghost predicate DispatchesNumbered(spec: RunSpec, r: Run) {
    && (forall j :: 0 <= j < |r.log| && r.log[j].Sent? ==>
          && spec.dispatches && 1 <= r.log[j].attempt <= r.attempts
          && (r.phase.PreObserving? || r.phase.Sending? ==> r.log[j].attempt < r.attempts))
    && (forall i, j :: 0 <= i < j < |r.log| && r.log[i].Sent? && r.log[j].Sent? ==>
          r.log[i].attempt < r.log[j].attempt)
  }

  /** Every dispatch follows a pre-observation of the same attempt that satisfied all preconditions. */
  ghost predicate DispatchesPreVerified(spec: RunSpec, r: Run) {
    spec.contract.preconditions != [] ==>
      && (forall j :: 0 <= j < |r.log| && r.log[j].Sent? ==>
            exists m :: 0 <= m < j && PreVerified(spec, r.log[m], r.log[j].attempt))
      && (r.phase.Sending? ==> exists m :: 0 <= m < |r.log| && PreVerified(spec, r.log[m], r.attempts))
  }

  /** Between any two dispatches the postconditions were observed to fail. */
  ghost predicate RetriesVerified(spec: RunSpec, r: Run) {
    spec.observer ==>
      && (forall i, j :: 0 <= i < j < |r.log| && r.log[i].Sent? && r.log[j].Sent? ==>
            exists m :: i < m < j && FailureSeen(spec, r.log[m]))
      && (Ahead(r) ==>
            forall i :: 0 <= i < |r.log| && r.log[i].Sent? ==>
              exists m :: i < m < |r.log| && FailureSeen(spec, r.log[m]))
  }

  /** The answer to a call of the adapter comes right after it. */
  ghost predicate RepliesFollow(r: Run) {
    forall j :: 0 <= j < |r.log| && r.log[j].Replied? ==> j >= 1 && r.log[j - 1] == Sent(r.log[j].attempt)
  }

  lemma RepliesStep(spec: RunSpec, r: Run, q: Run, es: seq<Event>)
    requires Shape(spec, r) && LogStep(spec, r, q, es) && RepliesFollow(r)
    ensures RepliesFollow(q)
  {
  }

  lemma NumberedStep(spec: RunSpec, r: Run, q: Run, es: seq<Event>)
    requires Shape(spec, r) && Shape(spec, q) && LogStep(spec, r, q, es) && DispatchesNumbered(spec, r)
    ensures DispatchesNumbered(spec, q)
  {
  }

  lemma PreVerifiedStep(spec: RunSpec, r: Run, q: Run, es: seq<Event>)
    requires LogStep(spec, r, q, es) && DispatchesPreVerified(spec, r)
    ensures DispatchesPreVerified(spec, q)
  {
    hide PreVerified, FailureSeen;
    if spec.contract.preconditions != [] {
      forall j | 0 <= j < |q.log| && q.log[j].Sent?
        ensures exists m :: 0 <= m < j && PreVerified(spec, q.log[m], q.log[j].attempt)
      {
        var attempt := q.log[j].attempt;
        if j < |r.log| {
          var m :| 0 <= m < j && PreVerified(spec, r.log[m], attempt);
          assert q.log[m] == r.log[m];
        } else {
          var m :| 0 <= m < |r.log| && PreVerified(spec, r.log[m], r.attempts);
          assert q.log[m] == r.log[m];
        }
      }
      if q.phase.Sending? {
        if r.phase.Sending? {
          var m :| 0 <= m < |r.log| && PreVerified(spec, r.log[m], r.attempts);
          assert PreVerified(spec, q.log[m], q.attempts);
        } else {
          assert PreVerified(spec, q.log[|r.log|], q.attempts);
        }
      }
    }
  }

  lemma RetriesStep(spec: RunSpec, r: Run, q: Run, es: seq<Event>)
    requires Shape(spec, q) && LogStep(spec, r, q, es) && RetriesVerified(spec, r)
    requires q.phase.Start? || q.phase.Polling? ==> q.log == []
    ensures RetriesVerified(spec, q)
  {
    hide PreVerified, FailureSeen;
    if spec.observer {
      forall i, j | 0 <= i < j < |q.log| && q.log[i].Sent? && q.log[j].Sent?
        ensures exists m :: i < m < j && FailureSeen(spec, q.log[m])
      {
        assert q.log[i] == r.log[i];
        if j < |r.log| {
          var m :| i < m < j && FailureSeen(spec, r.log[m]);
          assert q.log[m] == r.log[m];
        } else {
          var m :| i < m < |r.log| && FailureSeen(spec, r.log[m]);
          assert q.log[m] == r.log[m];
        }
      }
      if Ahead(q) && q.log != [] {
        forall i | 0 <= i < |q.log| && q.log[i].Sent?
          ensures exists m :: i < m < |q.log| && FailureSeen(spec, q.log[m])
        {
          assert i < |r.log| && q.log[i] == r.log[i];
          if Ahead(r) {
            var m :| i < m < |r.log| && FailureSeen(spec, r.log[m]);
            assert q.log[m] == r.log[m];
          } else {
            assert FailureSeen(spec, q.log[|r.log|]);
          }
        }
      }
    }
  }

  /** The whole log invariant of a run. */
  ghost predicate LogOk(spec: RunSpec, r: Run) {
    DispatchesNumbered(spec, r) && DispatchesPreVerified(spec, r) && RetriesVerified(spec, r) && RepliesFollow(r)
  }

  lemma MoveKeepsLog(spec: RunSpec, r: Run, store: Store, input: Input)
    requires Shape(spec, r) && LogOk(spec, r)
    ensures LogOk(spec, Move(spec, r, store, input).run)
  {
    var q, es := Move(spec, r, store, input).run, NewEvents(spec, r, store, input);
    MoveKeepsShape(spec, r, store, input);
    MoveLogStep(spec, r, store, input);
    NumberedStep(spec, r, q, es);
    PreVerifiedStep(spec, r, q, es);
    RetriesStep(spec, r, q, es);
    RepliesStep(spec, r, q, es);
  }
}
