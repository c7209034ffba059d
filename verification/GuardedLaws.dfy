/**
 * What a breaker makes of the calls it guards (crates/agentverify-recovery/src/lib.rs), one guarded
 * execution after the other on the same breaker.
 */
module GuardedLaws {
  import opened Common
  import opened Verdicts
  import opened Breakers
  import opened Recovery
  import opened RecoveryLaws

  predicate Succeeds(answer: Result<Verdict, Error>) {
    answer.Ok? && Good(answer.value)
  }

  /** A guarded execution made its call, whose answer is its outcome. */
  ghost predicate CallMade(env: Environment, w: World, r: Ran) {
    var answer := env.reply(|w.calls|).answer;
    && r.world.calls == w.calls + [Answered(answer)] && r.world.readings == w.readings + 3
    && r.outcome == match answer { case Ok(v) => Success(v) case Err(e) => Failure(e) }
  }

  ghost predicate Refused(w: World, r: Ran) {
    r.world.calls == w.calls && r.outcome == Failure(CircuitBreakerOpen)
  }

  /** Nothing but the breaker of a guarded execution and its own record changes. */
  lemma GuardedTouchesItsBreakerOnly(env: Environment, w: World, id: nat, other: nat)
    requires other != id
    ensures var after := Run(env, w, Guarded(id)).world;
            Current(after, other) == Current(w, other) && after.slept == w.slept
  {
  }

  /**
   * A closed breaker lets the call through. A success forgets its failures; any other answer, errors among
   * them, is one failure more, at the reading taken after the call, and the one that reaches the threshold
   * opens it.
   */
  lemma GuardedWhenClosed(env: Environment, w: World, id: nat)
    requires Current(w, id).state.Closed?
    ensures CallMade(env, w, Run(env, w, Guarded(id)))
    ensures var before, after := Current(w, id), Current(Run(env, w, Guarded(id)).world, id);
            if Succeeds(env.reply(|w.calls|).answer) then
              after.state.Closed? && after.failures == 0 && after.lastFailure == before.lastFailure
            else
              && after.failures == before.failures + 1 && after.lastFailure == Some(env.clock(w.readings + 2))
              && after.state == if after.failures < env.config(id).failureThreshold then Closed else Open
  {
  }

  /**
   * An open breaker refuses until its timeout has passed since the last failure. Then the call is a trial:
   * any answer but a success opens it again, and successes close it when there are enough.
   */
  lemma GuardedWhenOpen(env: Environment, w: World, id: nat)
    requires Current(w, id).state.Open? && Consistent(env.config(id), Current(w, id))
    ensures var r, before, c := Run(env, w, Guarded(id)), Current(w, id), env.config(id);
            var after, answer := Current(r.world, id), env.reply(|w.calls|).answer;
            if env.clock(w.readings) - before.lastFailure.value < c.recoveryTimeout then
              Refused(w, r) && after == before
            else
              && CallMade(env, w, r)
              && if Succeeds(answer) then after.state == if c.successThreshold <= 1 then Closed else HalfOpen
                 else after.state.Open? && after.lastFailure == Some(env.clock(w.readings + 2))
  {
  }

  /** A half-open breaker lets every call through, and one that is no success opens it. */
  lemma GuardedWhenHalfOpen(env: Environment, w: World, id: nat)
    requires Current(w, id).state.HalfOpen?
    ensures CallMade(env, w, Run(env, w, Guarded(id)))
    ensures var before, after := Current(w, id), Current(Run(env, w, Guarded(id)).world, id);
            if Succeeds(env.reply(|w.calls|).answer) then
              after.state == if before.successes + 1 < env.config(id).successThreshold then HalfOpen else Closed
            else after.state.Open? && after.lastFailure == Some(env.clock(w.readings + 2))
  {
  }

  /** The world after a number of guarded executions in a row. */
  function Repeated(env: Environment, w: World, id: nat, n: nat): World {
    if n == 0 then w else Run(env, Repeated(env, w, id, n - 1), Guarded(id)).world
  }

  /** How many answers in a row, up to the given one, were no successes. */
  function RowOf(env: Environment, start: nat, n: nat): nat {
    if n == 0 || Succeeds(env.reply(start + n - 1).answer) then 0 else RowOf(env, start, n - 1) + 1
  }

  ghost predicate StaysClosed(env: Environment, w: World, id: nat, n: nat) {
    forall k: nat :: k <= n ==> Current(Repeated(env, w, id, k), id).state.Closed?
  }

  /** Every row of answers that are no successes is below the threshold. */
  ghost predicate RowsAreShort(env: Environment, start: nat, n: nat, threshold: nat) {
    forall k: nat :: k <= n ==> RowOf(env, start, k) < AtLeastOne(threshold)
  }

  lemma CountsOneMore(env: Environment, w: World, id: nat, start: nat, n: nat)
    requires Current(w, id).state.Closed? && |w.calls| == start + n && Current(w, id).failures == RowOf(env, start, n)
    ensures var after := Run(env, w, Guarded(id)).world;
            && |after.calls| == start + n + 1 && after.readings == w.readings + 3
            && Current(after, id).failures == RowOf(env, start, n + 1)
  {
    hide Run, Current;
    GuardedWhenClosed(env, w, id);
  }

  lemma ClosedBefore(env: Environment, w: World, id: nat, n: nat)
    requires StaysClosed(env, w, id, n) && n > 0
    ensures StaysClosed(env, w, id, n - 1) && Current(Repeated(env, w, id, n - 1), id).state.Closed?
  {
    hide Repeated, Current;
  }

  /** While it stays closed every execution calls, and the failures counted are those in a row. */
  lemma {:induction false} ClosedCountsRows(env: Environment, w: World, id: nat, n: nat)
    requires Current(w, id) == NEW && StaysClosed(env, w, id, n)
    ensures var after := Repeated(env, w, id, n);
            && |after.calls| == |w.calls| + n && after.readings == w.readings + 3 * n
            && Current(after, id).failures == RowOf(env, |w.calls|, n)
  {
    hide Run, Current, StaysClosed;
    if n == 0 {
      assert RowOf(env, |w.calls|, 0) == 0;
    } else {
      hide RowOf;
      ClosedBefore(env, w, id, n);
      ClosedCountsRows(env, w, id, n - 1);
      CountsOneMore(env, Repeated(env, w, id, n - 1), id, |w.calls|, n - 1);
    }
  }

  /** One more execution opens it exactly when it completes a row. */
  lemma OneMoreOpens(env: Environment, w: World, id: nat, n: nat)
    requires Current(w, id) == NEW && StaysClosed(env, w, id, n)
    ensures var after := Repeated(env, w, id, n + 1);
            |after.calls| == |w.calls| + n + 1 && after.readings == w.readings + 3 * n + 3
    ensures var after := Current(Repeated(env, w, id, n + 1), id);
            if RowOf(env, |w.calls|, n + 1) < AtLeastOne(env.config(id).failureThreshold) then after.state.Closed?
            else after.state.Open? && after.lastFailure == Some(env.clock(w.readings + 3 * n + 2))
  {
    ClosedCountsRows(env, w, id, n);
    GuardedWhenClosed(env, Repeated(env, w, id, n), id);
    hide Run, Current;
  }

  /** A new breaker stays closed exactly while the answers that are no successes come in short rows. */
  lemma {:induction false} StaysClosedIff(env: Environment, w: World, id: nat, n: nat)
    requires Current(w, id) == NEW
    ensures StaysClosed(env, w, id, n) <==> RowsAreShort(env, |w.calls|, n, env.config(id).failureThreshold)
  {
    if n > 0 {
      StaysClosedIff(env, w, id, n - 1);
      if StaysClosed(env, w, id, n - 1) {
        OneMoreOpens(env, w, id, n - 1);
      }
    }
  }

  /** The answers from `start` on are no successes. */
  ghost predicate NoSuccess(env: Environment, start: nat, n: nat) {
    forall i: nat :: start <= i < start + n ==> !Succeeds(env.reply(i).answer)
  }

  lemma {:induction false} RowOfFailures(env: Environment, start: nat, n: nat)
    requires NoSuccess(env, start, n)
    ensures RowOf(env, start, n) == n
  {
    if n > 0 {
      RowOfFailures(env, start, n - 1);
    }
  }

  /**
   * A threshold of answers in a row that are no successes opens a new breaker, not before the last of them,
   * and the next execution is refused without a call exactly until the timeout has passed since then.
   */
  lemma FailuresOpenIt(env: Environment, w: World, id: nat)
    requires Current(w, id) == NEW && NoSuccess(env, |w.calls|, AtLeastOne(env.config(id).failureThreshold))
    ensures var n := AtLeastOne(env.config(id).failureThreshold);
            var after := Repeated(env, w, id, n);
            && StaysClosed(env, w, id, n - 1) && Current(after, id).state.Open? && |after.calls| == |w.calls| + n
            && (Refused(after, Run(env, after, Guarded(id))) <==>
                  env.clock(w.readings + 3 * n) - env.clock(w.readings + 3 * n - 1) < env.config(id).recoveryTimeout)
  {
    hide Run, Current, StaysClosed, Repeated;
    var n := AtLeastOne(env.config(id).failureThreshold);
    OpensAtTheThreshold(env, w, id, n);
    RepeatedKeepsConsistent(env, w, id, n);
    GuardedWhenOpen(env, Repeated(env, w, id, n), id);
  }

  lemma OpensAtTheThreshold(env: Environment, w: World, id: nat, n: nat)
    requires Current(w, id) == NEW && n == AtLeastOne(env.config(id).failureThreshold)
    requires NoSuccess(env, |w.calls|, n)
    ensures var after := Repeated(env, w, id, n);
            && StaysClosed(env, w, id, n - 1) && |after.calls| == |w.calls| + n && after.readings == w.readings + 3 * n
            && Current(after, id).state.Open? && Current(after, id).lastFailure == Some(env.clock(after.readings - 1))
  {
    hide Run, RowOf, Repeated, StaysClosed, Current;
    forall k: nat | k <= n ensures RowOf(env, |w.calls|, k) == k {
      RowOfFailures(env, |w.calls|, k);
    }
    StaysClosedIff(env, w, id, n - 1);
    OneMoreOpens(env, w, id, n - 1);
  }

  lemma NewIsConsistent(c: Config)
    ensures Consistent(c, NEW)
  {
  }

  lemma GuardedKeepsConsistent(env: Environment, w: World, id: nat)
    requires Consistent(env.config(id), Current(w, id))
    ensures Consistent(env.config(id), Current(Run(env, w, Guarded(id)).world, id))
  {
  }

  lemma {:induction false} RepeatedKeepsConsistent(env: Environment, w: World, id: nat, n: nat)
    requires Current(w, id) == NEW
    ensures Consistent(env.config(id), Current(Repeated(env, w, id, n), id))
  {
    hide Run, Consistent;
    if n > 0 {
      RepeatedKeepsConsistent(env, w, id, n - 1);
      GuardedKeepsConsistent(env, Repeated(env, w, id, n - 1), id);
    } else {
      NewIsConsistent(env.config(id));
    }
  }

  /** Any number of successes leaves it closed, and calls every time. */
  lemma SuccessesNeverOpenIt(env: Environment, w: World, id: nat, n: nat)
    requires Current(w, id) == NEW
    requires forall i: nat :: |w.calls| <= i < |w.calls| + n ==> Succeeds(env.reply(i).answer)
    ensures StaysClosed(env, w, id, n) && |Repeated(env, w, id, n).calls| == |w.calls| + n
  {
    forall k: nat | k <= n ensures RowOf(env, |w.calls|, k) == 0 {
      hide Repeated;
    }
    StaysClosedIff(env, w, id, n);
    ClosedCountsRows(env, w, id, n);
  }
}
