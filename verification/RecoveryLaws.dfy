/** What every tree of recovery strategies guarantees, whatever its operation answers. */
module RecoveryLaws {
  import opened Common
  import opened Verdicts
  import opened Backoff
  import opened Breakers
  import opened Recovery

  /** The most calls of the operation a strategy may make. */
  function Budget(s: Strategy): nat
    decreases s
  {
    match s
    case Retry(max, backoff) => max
    case Fallback => 0
    case Guarded(_) => 1
    case Timed(_) => 1
    case Composite(strategies) => TotalBudget(strategies)
  }

  function TotalBudget(strategies: seq<Strategy>): nat
    decreases strategies
  {
    if strategies == [] then 0 else Budget(strategies[0]) + TotalBudget(strategies[1..])
  }

  /** The two verdicts that count as success. */
  predicate Good(v: Verdict) {
    v == Verified || v == Duplicate
  }

  predicate Succeeded(call: Call) {
    call.Answered? && call.answer.Ok? && Good(call.answer.value)
  }

  /**
   * What a run tells about the calls it made: it added to them within its budget, no call but the last
   * succeeded, a success is the answer of the last call, and after a failure no call succeeded at all.
   */
  ghost predicate Tells(before: seq<Call>, after: seq<Call>, outcome: Outcome, budget: nat) {
    && before <= after && |after| <= |before| + budget
    && (forall i :: |before| <= i < |after| - 1 ==> !Succeeded(after[i]))
    && match outcome
       case Success(v) => |before| < |after| && after[|after| - 1] == Answered(Ok(v))
       case Failure(_) => |before| < |after| ==> !Succeeded(after[|after| - 1])
       case Inapplicable => false
  }

  lemma TellsThen(a: seq<Call>, b: seq<Call>, c: seq<Call>, first: Outcome, second: Outcome, m: nat, n: nat)
    requires Tells(a, b, first, m) && first.Failure? && Tells(b, c, second, n)
    ensures Tells(a, c, second, m + n)
  {
  }

  lemma TellsMore(a: seq<Call>, b: seq<Call>, outcome: Outcome, m: nat, n: nat)
    requires Tells(a, b, outcome, m)
    ensures Tells(a, b, outcome, m + n)
  {
  }

  lemma {:induction false} RetryTells(
    env: Environment, w: World, max: nat, backoff: RecoveryBackoff, attempt: nat, failed: bool, last: Option<Error>)
    requires attempt <= max
    ensures var r := RetryFrom(env, w, max, backoff, attempt, failed, last);
            Tells(w.calls, r.world.calls, r.outcome, max - attempt) && r.world.breakers == w.breakers
    decreases max - attempt
  {
    if attempt < max {
      var answer := env.reply(|w.calls|).answer;
      var next := Record(Rest(w, backoff, attempt), Answered(answer));
      match answer
      case Ok(v) =>
        if !Good(v) {
          RetryTells(env, next, max, backoff, attempt + 1, failed || Fails(Answered(answer)), Some(NotApplicable(v)));
        }
      case Err(e) =>
        if !e.CircuitBreakerOpen? {
          RetryTells(env, next, max, backoff, attempt + 1, failed, Some(e));
        }
    }
  }

  lemma {:induction false} RunTells(env: Environment, w: World, s: Strategy)
    ensures var r := Run(env, w, s); Tells(w.calls, r.world.calls, r.outcome, Budget(s))
    decreases s
  {
    match s
    case Retry(max, backoff) => RetryTells(env, w, max, backoff, 0, false, None);
    case Fallback =>
    case Guarded(id) =>
    case Timed(duration) =>
    case Composite(strategies) => ChainTells(env, w, strategies, Failure(MaxAttemptsExceeded(1)));
  }

  lemma {:induction false} ChainTells(env: Environment, w: World, strategies: seq<Strategy>, otherwise: Outcome)
    requires otherwise.Failure?
    ensures var r := RunChain(env, w, strategies, otherwise);
            Tells(w.calls, r.world.calls, r.outcome, TotalBudget(strategies))
    decreases strategies
  {
    if strategies != [] {
      var first := Run(env, w, strategies[0]);
      RunTells(env, w, strategies[0]);
      if first.outcome.Success? {
        TellsMore(w.calls, first.world.calls, first.outcome, Budget(strategies[0]), TotalBudget(strategies[1..]));
      } else {
        ChainTells(env, first.world, strategies[1..], otherwise);
        var rest := RunChain(env, first.world, strategies[1..], otherwise);
        TellsThen(w.calls, first.world.calls, rest.world.calls, first.outcome, rest.outcome,
                  Budget(strategies[0]), TotalBudget(strategies[1..]));
      }
    }
  }

  function PlanBudget(plan: Plan): nat {
    Budget(plan.primary) + TotalBudget(plan.fallbacks)
  }

  /**
   * A whole recovery calls its operation at most as often as its leaves allow together, never again
   * once a call has returned a success, and reports the last call's answer or a failure.
   */
  lemma RecoveryTells(env: Environment, w: World, plan: Plan)
    ensures var r := Recover(env, w, plan); Tells(w.calls, r.world.calls, r.outcome, PlanBudget(plan))
  {
    var first, r := Run(env, w, plan.primary), Recover(env, w, plan);
    var m, n := Budget(plan.primary), TotalBudget(plan.fallbacks);
    RunTells(env, w, plan.primary);
    if first.outcome.Success? || r.world.calls == first.world.calls {
      TellsMore(w.calls, first.world.calls, first.outcome, m, n);
    }
    if first.outcome.Failure? {
      ChainTells(env, first.world, plan.fallbacks, first.outcome);
      if plan.gate.Some? {
        var id := plan.gate.value;
        var asked := Asked(env, first.world, id);
        ChainTells(env, asked, plan.fallbacks, first.outcome);
        var rest := RunChain(env, asked, plan.fallbacks, first.outcome);
        TellsThen(w.calls, first.world.calls, rest.world.calls, first.outcome, rest.outcome, m, n);
      } else {
        TellsThen(w.calls, first.world.calls, r.world.calls, first.outcome, r.outcome, m, n);
      }
    }
  }

  /** A tree has a leaf that passes on whatever the operation answers. */
  predicate PassesAnswersOn(s: Strategy)
    decreases s
  {
    match s
    case Retry(_, _) => false
    case Fallback => false
    case Guarded(_) => true
    case Timed(_) => true
    case Composite(strategies) => AnyPassesOn(strategies)
  }

  predicate AnyPassesOn(strategies: seq<Strategy>)
    decreases strategies
  {
    strategies != [] && (PassesAnswersOn(strategies[0]) || AnyPassesOn(strategies[1..]))
  }

  lemma {:induction false} RetrySucceedsTruly(
    env: Environment, w: World, max: nat, backoff: RecoveryBackoff, attempt: nat, failed: bool, last: Option<Error>)
    ensures var o := RetryFrom(env, w, max, backoff, attempt, failed, last).outcome; o.Success? ==> Good(o.result)
    decreases max - attempt
  {
    if attempt < max {
      var answer := env.reply(|w.calls|).answer;
      var next := Record(Rest(w, backoff, attempt), Answered(answer));
      match answer
      case Ok(v) =>
        if !Good(v) {
          RetrySucceedsTruly(env, next, max, backoff, attempt + 1, failed || Fails(Answered(answer)),
                             Some(NotApplicable(v)));
        }
      case Err(e) =>
        if !e.CircuitBreakerOpen? {
          RetrySucceedsTruly(env, next, max, backoff, attempt + 1, failed, Some(e));
        }
    }
  }

  lemma {:induction false} SucceedsTruly(env: Environment, w: World, s: Strategy)
    requires !PassesAnswersOn(s)
    ensures var o := Run(env, w, s).outcome; o.Success? ==> Good(o.result)
    decreases s
  {
    match s
    case Retry(max, backoff) => RetrySucceedsTruly(env, w, max, backoff, 0, false, None);
    case Fallback =>
    case Composite(strategies) => ChainSucceedsTruly(env, w, strategies, Failure(MaxAttemptsExceeded(1)));
  }

  lemma {:induction false} ChainSucceedsTruly(env: Environment, w: World, strategies: seq<Strategy>, otherwise: Outcome)
    requires !AnyPassesOn(strategies) && otherwise.Failure?
    ensures var o := RunChain(env, w, strategies, otherwise).outcome; o.Success? ==> Good(o.result)
    decreases strategies
  {
    if strategies != [] {
      SucceedsTruly(env, w, strategies[0]);
      ChainSucceedsTruly(env, Run(env, w, strategies[0]).world, strategies[1..], otherwise);
    }
  }

  /** An operation that always answers with a failed verification, in good time. */
  function AlwaysFailed(config: nat -> Config): Environment {
    Environment(n => Reply(Ok(Failed), 0), n => 0, config)
  }

  lemma {:induction false} RetryOfFailed(
    config: nat -> Config, w: World, max: nat, backoff: RecoveryBackoff, attempt: nat, failed: bool,
    last: Option<Error>)
    ensures RetryFrom(AlwaysFailed(config), w, max, backoff, attempt, failed, last).outcome.Failure?
    ensures RetryFrom(AlwaysFailed(config), w, max, backoff, attempt, failed, last).world.breakers == w.breakers
    decreases max - attempt
  {
    if attempt < max {
      var next := Record(Rest(w, backoff, attempt), Answered(Ok(Failed)));
      RetryOfFailed(config, next, max, backoff, attempt + 1, true, Some(NotApplicable(Failed)));
    }
  }

  lemma {:induction false} RunOfFailed(config: nat -> Config, w: World, s: Strategy)
    requires w.breakers == map[]
    ensures var r := Run(AlwaysFailed(config), w, s);
            if PassesAnswersOn(s) then r.outcome == Success(Failed) else r.outcome.Failure? && r.world.breakers == map[]
    decreases s
  {
    match s
    case Retry(max, backoff) => RetryOfFailed(config, w, max, backoff, 0, false, None);
    case Fallback =>
    case Guarded(_) =>
    case Timed(_) =>
    case Composite(strategies) => ChainOfFailed(config, w, strategies, Failure(MaxAttemptsExceeded(1)));
  }

  lemma {:induction false} ChainOfFailed(config: nat -> Config, w: World, strategies: seq<Strategy>, otherwise: Outcome)
    requires w.breakers == map[] && otherwise.Failure?
    ensures var r := RunChain(AlwaysFailed(config), w, strategies, otherwise);
            if AnyPassesOn(strategies) then r.outcome == Success(Failed)
            else r.outcome.Failure? && r.world.breakers == map[]
    decreases strategies
  {
    if strategies != [] {
      RunOfFailed(config, w, strategies[0]);
      if !PassesAnswersOn(strategies[0]) {
        ChainOfFailed(config, Run(AlwaysFailed(config), w, strategies[0]).world, strategies[1..], otherwise);
      }
    }
  }

  /** Does every run of a strategy that reports a success carry a verified or duplicate result? */
  ghost predicate SuccessIsSuccess(s: Strategy) {
    forall env, w :: Run(env, w, s).outcome.Success? ==> Good(Run(env, w, s).outcome.result)
  }

  /** Exactly the trees with no breaker and no timeout in them report only true successes. */
  lemma SuccessIsSuccessIff(s: Strategy)
    ensures SuccessIsSuccess(s) <==> !PassesAnswersOn(s)
  {
    if PassesAnswersOn(s) {
      var config: nat -> Config := n => Config(1, 1, 0);
      var env, w := AlwaysFailed(config), World(map[], [], 0, 0);
      RunOfFailed(config, w, s);
      assert Run(env, w, s).outcome == Success(Failed);
    } else {
      forall env, w ensures Run(env, w, s).outcome.Success? ==> Good(Run(env, w, s).outcome.result) {
        SucceedsTruly(env, w, s);
      }
    }
  }

  /** Every breaker of a world keeps the breaker's invariant. */
  ghost predicate BreakersConsistent(env: Environment, w: World) {
    forall id :: id in w.breakers ==> Consistent(env.config(id), w.breakers[id])
  }

  lemma GuardedKeepsBreakers(env: Environment, w: World, id: nat)
    requires BreakersConsistent(env, w)
    ensures BreakersConsistent(env, RunGuarded(env, w, id).world)
  {
    var c, b, now := env.config(id), Current(w, id), env.clock(w.readings);
    assert Consistent(c, b);
    var asked := AfterAsking(c, b, now);
    StepKeepsConsistent(c, b, Asking(now));
    StepKeepsConsistent(c, asked, Failing(env.clock(w.readings + 2)));
    StepKeepsConsistent(c, asked, Succeeding);
  }

  lemma {:induction false} RunKeepsBreakers(env: Environment, w: World, s: Strategy)
    requires BreakersConsistent(env, w)
    ensures BreakersConsistent(env, Run(env, w, s).world)
    decreases s
  {
    match s
    case Retry(max, backoff) => RetryTells(env, w, max, backoff, 0, false, None);
    case Fallback =>
    case Guarded(id) => GuardedKeepsBreakers(env, w, id);
    case Timed(_) =>
    case Composite(strategies) => ChainKeepsBreakers(env, w, strategies, Failure(MaxAttemptsExceeded(1)));
  }

  lemma {:induction false} ChainKeepsBreakers(env: Environment, w: World, strategies: seq<Strategy>, otherwise: Outcome)
    requires BreakersConsistent(env, w)
    ensures BreakersConsistent(env, RunChain(env, w, strategies, otherwise).world)
    decreases strategies
  {
    if strategies != [] {
      RunKeepsBreakers(env, w, strategies[0]);
      ChainKeepsBreakers(env, Run(env, w, strategies[0]).world, strategies[1..], otherwise);
    }
  }

  /** What a call's answer says went wrong. */
  function ErrorOf(answer: Result<Verdict, Error>): Error {
    match answer
    case Ok(v) => NotApplicable(v)
    case Err(e) => e
  }

  /** A retry stops at a success and at an open breaker below it. */
  predicate Stops(call: Call) {
    Succeeded(call) || call == Answered(Err(CircuitBreakerOpen))
  }

  predicate Fails(call: Call) {
    call == Answered(Ok(Failed)) || call == Answered(Ok(Partial))
  }

  predicate AnyFailure(calls: seq<Call>, from: nat) {
    exists i :: from <= i < |calls| && Fails(calls[i])
  }

  /**
   * The calls of a retry that had some attempts left: each is the operation's own answer, only the last
   * may stop it, and if attempts are left over it did.
   */
  ghost predicate RetryCalls(env: Environment, before: seq<Call>, calls: seq<Call>, left: nat) {
    && before <= calls && |calls| <= |before| + left
    && (forall i :: |before| <= i < |calls| ==> calls[i] == Answered(env.reply(i).answer))
    && (forall i :: |before| <= i < |calls| - 1 ==> !Stops(calls[i]))
    && (|calls| < |before| + left ==> |before| < |calls| && Stops(calls[|calls| - 1]))
  }

  /**
   * The outcome of a retry read off its calls: a success exactly when the last one succeeded; else the
   * last error, if a verification failed on the way, and otherwise that the attempts ran out.
   */
  ghost predicate RetryOutcome(
    before: seq<Call>, max: nat, failed: bool, last: Option<Error>, calls: seq<Call>, outcome: Outcome)
  {
    if |before| < |calls| && calls[|calls| - 1].Answered? then
      var end := calls[|calls| - 1];
      if Succeeded(end) then outcome == Success(end.answer.value)
      else
        var told := failed || AnyFailure(calls, |before|);
        outcome == Failure(if told then ErrorOf(end.answer) else MaxAttemptsExceeded(max))
    else outcome == Failure(if failed && last.Some? then last.value else MaxAttemptsExceeded(max))
  }

  /** One turn of a retry with attempts left. */
  lemma RetryTurn(
    env: Environment, w: World, max: nat, backoff: RecoveryBackoff, attempt: nat, failed: bool, last: Option<Error>)
    requires attempt < max
    ensures var answer := env.reply(|w.calls|).answer;
            var call, next := Answered(answer), Record(Rest(w, backoff, attempt), Answered(answer));
            RetryFrom(env, w, max, backoff, attempt, failed, last) ==
            if Succeeded(call) then Ran(next, Success(answer.value))
            else if Stops(call) then Ran(next, Failure(if failed then CircuitBreakerOpen else MaxAttemptsExceeded(max)))
            else RetryFrom(env, next, max, backoff, attempt + 1, failed || Fails(call), Some(ErrorOf(answer)))
  {
    hide RecoveryDelay;
  }

  lemma {:induction false} RetryMakesItsCalls(
    env: Environment, w: World, max: nat, backoff: RecoveryBackoff, attempt: nat, failed: bool, last: Option<Error>)
    requires attempt <= max
    ensures RetryCalls(env, w.calls, RetryFrom(env, w, max, backoff, attempt, failed, last).world.calls, max - attempt)
    decreases max - attempt
  {
    if attempt < max {
      hide RetryFrom, RecoveryDelay;
      var answer := env.reply(|w.calls|).answer;
      RetryTurn(env, w, max, backoff, attempt, failed, last);
      if !Stops(Answered(answer)) {
        RetryMakesItsCalls(env, Record(Rest(w, backoff, attempt), Answered(answer)), max, backoff, attempt + 1,
                           failed || Fails(Answered(answer)), Some(ErrorOf(answer)));
      }
    }
  }

  lemma {:induction false} RetryReportsItsCalls(
    env: Environment, w: World, max: nat, backoff: RecoveryBackoff, attempt: nat, failed: bool, last: Option<Error>)
    requires attempt <= max
    ensures var r := RetryFrom(env, w, max, backoff, attempt, failed, last);
            RetryOutcome(w.calls, max, failed, last, r.world.calls, r.outcome)
    decreases max - attempt
  {
    if attempt < max {
      hide RetryFrom, RecoveryDelay, AnyFailure;
      var answer := env.reply(|w.calls|).answer;
      var call := Answered(answer);
      var next := Record(Rest(w, backoff, attempt), call);
      RetryTurn(env, w, max, backoff, attempt, failed, last);
      if Stops(call) {
        OneMoreFailure(w.calls, call, next.calls);
        NoneLeft(next.calls);
      } else {
        RetryReportsItsCalls(env, next, max, backoff, attempt + 1, failed || Fails(call), Some(ErrorOf(answer)));
        RetryMakesItsCalls(env, next, max, backoff, attempt + 1, failed || Fails(call), Some(ErrorOf(answer)));
        OneMoreFailure(w.calls, call, RetryFrom(env, w, max, backoff, attempt, failed, last).world.calls);
        NoneLeft(next.calls);
      }
    }
  }

  lemma NoneLeft(calls: seq<Call>)
    ensures !AnyFailure(calls, |calls|)
  {
  }

  lemma OneMoreFailure(before: seq<Call>, call: Call, calls: seq<Call>)
    requires before + [call] <= calls
    ensures AnyFailure(calls, |before|) <==> Fails(call) || AnyFailure(calls, |before| + 1)
  {
    assert calls[|before|] == call;
  }

  /** A retry, from its first attempt. */
  lemma RetryReads(env: Environment, w: World, max: nat, backoff: RecoveryBackoff)
    ensures var r := Run(env, w, Retry(max, backoff));
            && RetryCalls(env, w.calls, r.world.calls, max)
            && RetryOutcome(w.calls, max, false, None, r.world.calls, r.outcome)
  {
    RetryMakesItsCalls(env, w, max, backoff, 0, false, None);
    RetryReportsItsCalls(env, w, max, backoff, 0, false, None);
  }
}
