/** The budgets of a recovery: its calls can use them up, and its sleeps keep to theirs. */
module RecoveryBudgets {
  import opened Common
  import opened Backoff
  import opened Breakers
  import opened Recovery
  import opened RecoveryLaws

  const FAULT: Error := UnderlyingError("")

  /** An operation that always errs, under breakers that bear a number of failures. */
  function AlwaysErring(threshold: nat): Environment {
    Environment(n => Reply(Err(FAULT), 0), n => 0, n => Config(threshold, 1, 0))
  }

  /** No breaker has opened, and none has more failures than there were calls. */
  ghost predicate StillClosed(w: World) {
    forall id :: id in w.breakers ==> w.breakers[id].state.Closed? && w.breakers[id].failures <= |w.calls|
  }

  /** The run failed, having made a number of calls. */
  ghost predicate UsedUp(w: World, r: Ran, calls: nat) {
    r.outcome.Failure? && |r.world.calls| == |w.calls| + calls && StillClosed(r.world)
  }

  lemma {:induction false} RetryUsesUp(
    threshold: nat, w: World, max: nat, backoff: RecoveryBackoff, attempt: nat, last: Option<Error>)
    requires attempt <= max && StillClosed(w)
    ensures UsedUp(w, RetryFrom(AlwaysErring(threshold), w, max, backoff, attempt, false, last), max - attempt)
    decreases max - attempt
  {
    if attempt < max {
      var next := Record(Rest(w, backoff, attempt), Answered(Err(FAULT)));
      RetryUsesUp(threshold, next, max, backoff, attempt + 1, Some(FAULT));
    }
  }

  lemma {:induction false} RunUsesUp(threshold: nat, w: World, s: Strategy)
    requires StillClosed(w) && |w.calls| + Budget(s) < threshold
    ensures UsedUp(w, Run(AlwaysErring(threshold), w, s), Budget(s))
    decreases s
  {
    match s
    case Retry(max, backoff) => RetryUsesUp(threshold, w, max, backoff, 0, None);
    case Fallback =>
    case Guarded(_) =>
    case Timed(_) =>
    case Composite(strategies) => ChainUsesUp(threshold, w, strategies, Failure(MaxAttemptsExceeded(1)));
  }

  lemma {:induction false} ChainUsesUp(threshold: nat, w: World, strategies: seq<Strategy>, otherwise: Outcome)
    requires StillClosed(w) && |w.calls| + TotalBudget(strategies) < threshold && otherwise.Failure?
    ensures UsedUp(w, RunChain(AlwaysErring(threshold), w, strategies, otherwise), TotalBudget(strategies))
    decreases strategies
  {
    if strategies != [] {
      RunUsesUp(threshold, w, strategies[0]);
      ChainUsesUp(threshold, Run(AlwaysErring(threshold), w, strategies[0]).world, strategies[1..], otherwise);
    }
  }

  const FRESH: World := World(map[], [], 0, 0)

  /** Every recovery can use up its budget of calls, whatever breakers are in it. */
  lemma BudgetIsAttained(plan: Plan) returns (env: Environment)
    ensures |Recover(env, FRESH, plan).world.calls| == PlanBudget(plan)
  {
    var threshold := PlanBudget(plan) + 1;
    env := AlwaysErring(threshold);
    RunUsesUp(threshold, FRESH, plan.primary);
    var first := Run(env, FRESH, plan.primary);
    match plan.gate
    case None => ChainUsesUp(threshold, first.world, plan.fallbacks, first.outcome);
    case Some(id) =>
      ChainUsesUp(threshold, Asked(env, first.world, id), plan.fallbacks, first.outcome);
  }

  /** The longest a strategy may sleep. */
  function SleepBudget(s: Strategy): nat
    decreases s
  {
    match s
    case Retry(max, backoff) => if max == 0 then 0 else (max - 1) * backoff.max
    case Composite(strategies) => TotalSleepBudget(strategies)
    case _ => 0
  }

  function TotalSleepBudget(strategies: seq<Strategy>): nat
    decreases strategies
  {
    if strategies == [] then 0 else SleepBudget(strategies[0]) + TotalSleepBudget(strategies[1..])
  }

  /** The sleeps of a retry before it makes a number of calls: one before each but the first. */
  function RestBefore(backoff: RecoveryBackoff, calls: nat): int {
    if calls <= 1 then 0 else RestBefore(backoff, calls - 1) + RecoveryDelay(backoff, calls - 2)
  }

  lemma {:induction false} RetryRests(
    env: Environment, w: World, max: nat, backoff: RecoveryBackoff, attempt: nat, failed: bool, last: Option<Error>)
    requires attempt <= max
    ensures var after := RetryFrom(env, w, max, backoff, attempt, failed, last).world;
            && |after.calls| >= |w.calls|
            && after.slept - w.slept ==
               RestBefore(backoff, attempt + |after.calls| - |w.calls|) - RestBefore(backoff, attempt)
    decreases max - attempt
  {
    if attempt < max {
      hide RecoveryDelay;
      var answer := env.reply(|w.calls|).answer;
      var next := Record(Rest(w, backoff, attempt), Answered(answer));
      RetryRests(env, next, max, backoff, attempt + 1, failed || Fails(Answered(answer)), Some(ErrorOf(answer)));
    }
  }

  /** A retry sleeps exactly between its calls, for the delays of its backoff in order. */
  lemma RetrySleepsBetweenCalls(env: Environment, w: World, max: nat, backoff: RecoveryBackoff)
    ensures var after := Run(env, w, Retry(max, backoff)).world;
            |after.calls| >= |w.calls| && after.slept == w.slept + RestBefore(backoff, |after.calls| - |w.calls|)
  {
    RetryRests(env, w, max, backoff, 0, false, None);
    hide RetryFrom;
  }

  lemma OneLess(n: nat, cap: nat)
    requires n >= 1
    ensures n * cap == (n - 1) * cap + cap && 0 <= (n - 1) * cap
  {
  }

  /** The sleeps of a retry that has begun: at most one before each further attempt. */
  lemma {:induction false} RetrySleeps(
    env: Environment, w: World, max: nat, backoff: RecoveryBackoff, attempt: nat, failed: bool, last: Option<Error>)
    requires 1 <= attempt <= max
    ensures RetryFrom(env, w, max, backoff, attempt, failed, last).world.slept <=
            w.slept + (max - attempt) * backoff.max
    decreases max - attempt
  {
    if attempt < max {
      var answer := env.reply(|w.calls|).answer;
      var next := Record(Rest(w, backoff, attempt), Answered(answer));
      RecoveryDelayIsCappedAndMonotone(backoff, attempt - 1, attempt - 1);
      OneLess(max - attempt, backoff.max);
      RetrySleeps(env, next, max, backoff, attempt + 1, failed || Fails(Answered(answer)), Some(ErrorOf(answer)));
    }
  }

  lemma FirstSleeps(env: Environment, w: World, max: nat, backoff: RecoveryBackoff)
    requires max >= 1
    ensures RetryFrom(env, w, max, backoff, 0, false, None).world.slept <= w.slept + (max - 1) * backoff.max
  {
    var answer := env.reply(|w.calls|).answer;
    OneLess(max, backoff.max);
    RetrySleeps(env, Record(w, Answered(answer)), max, backoff, 1, Fails(Answered(answer)), Some(ErrorOf(answer)));
  }

  /** Every tree sleeps at most the sum of what its retries may. */
  lemma {:induction false} SleepIsBounded(env: Environment, w: World, s: Strategy)
    ensures Run(env, w, s).world.slept <= w.slept + SleepBudget(s)
    decreases s
  {
    match s
    case Retry(max, backoff) =>
      if max >= 1 {
        FirstSleeps(env, w, max, backoff);
      }
    case Fallback =>
    case Guarded(_) =>
    case Timed(_) =>
    case Composite(strategies) => ChainSleepIsBounded(env, w, strategies, Failure(MaxAttemptsExceeded(1)));
  }

  lemma {:induction false} ChainSleepIsBounded(
    env: Environment, w: World, strategies: seq<Strategy>, otherwise: Outcome)
    ensures RunChain(env, w, strategies, otherwise).world.slept <= w.slept + TotalSleepBudget(strategies)
    decreases strategies
  {
    if strategies != [] {
      SleepIsBounded(env, w, strategies[0]);
      ChainSleepIsBounded(env, Run(env, w, strategies[0]).world, strategies[1..], otherwise);
    }
  }
}
