/**
 * Recovery strategies (crates/agentverify-recovery/src/lib.rs): a tree of retries, fallbacks, breakers,
 * timeouts and chains around one operation. The operation answers arbitrarily, call by call; breakers
 * are shared by number; the clock is read afresh by every breaker call.
 */
module Recovery {
  import opened Common
  import opened Verdicts
  import opened Backoff
  import opened Breakers

  datatype Error =
    | MaxAttemptsExceeded(attempts: nat)
    | CircuitBreakerOpen
    | Timeout(duration: nat)
    | AllFallbacksExhausted
    | NotApplicable(result: Verdict)
    | UnderlyingError(context: string)

  datatype Outcome = Success(result: Verdict) | Failure(error: Error) | Inapplicable

  datatype Strategy =
    | Retry(maxAttempts: nat, backoff: RecoveryBackoff)
    | Fallback
    | Guarded(breaker: nat)
    | Timed(duration: nat)
    | Composite(strategies: seq<Strategy>)

  /** What one call of the operation will answer, and how long it takes. */
  datatype Reply = Reply(answer: Result<Verdict, Error>, took: nat)

  datatype Environment = Environment(reply: nat -> Reply, clock: nat -> int, config: nat -> Config)

  /** A call of the operation as the strategy saw it: answered, or abandoned at its timeout. */
  datatype Call = Answered(answer: Result<Verdict, Error>) | Abandoned

  datatype World = World(breakers: map<nat, Breaker>, calls: seq<Call>, readings: nat, slept: int)

  datatype Ran = Ran(world: World, outcome: Outcome)

  function Current(w: World, id: nat): Breaker {
    if id in w.breakers then w.breakers[id] else NEW
  }

  function Record(w: World, call: Call): World {
    w.(calls := w.calls + [call])
  }

  /** The outcome of a retry that found no success. */
  function GivenUp(max: nat, failed: bool, last: Option<Error>): Outcome {
    Failure(if failed && last.Some? then last.value else MaxAttemptsExceeded(max))
  }

  /** The sleep before an attempt; there is none before the first. */
  function Rest(w: World, backoff: RecoveryBackoff, attempt: nat): World {
    if attempt > 0 then w.(slept := w.slept + RecoveryDelay(backoff, attempt - 1)) else w
  }

  function RetryFrom(
    env: Environment, w: World, max: nat, backoff: RecoveryBackoff, attempt: nat, failed: bool,
    last: Option<Error>): Ran
    decreases max - attempt
  {
    if attempt >= max then Ran(w, GivenUp(max, failed, last))
    else
      var answer := env.reply(|w.calls|).answer;
      var next := Record(Rest(w, backoff, attempt), Answered(answer));
      match answer
      case Ok(v) =>
        if v.IsSuccess() then Ran(next, Success(v))
        else RetryFrom(env, next, max, backoff, attempt + 1, failed || v.IsFailure(), Some(NotApplicable(v)))
      case Err(e) =>
        if e.CircuitBreakerOpen? then Ran(next, GivenUp(max, failed, Some(e)))
        else RetryFrom(env, next, max, backoff, attempt + 1, failed, Some(e))
  }

  function OutcomeOf(answer: Result<Verdict, Error>): Outcome {
    match answer
    case Ok(v) => Success(v)
    case Err(e) => Failure(e)
  }

  /** The breaker after the operation it let through has answered. */
  function Noted(c: Config, b: Breaker, answer: Result<Verdict, Error>, now: int): Breaker {
    if answer.Ok? && answer.value.IsSuccess() then RecordSuccess(c, b) else RecordFailure(c, b, now)
  }

  /** Does the breaker let a request through now? */
  predicate LetsThrough(env: Environment, w: World, id: nat) {
    Allows(env.config(id), Current(w, id), env.clock(w.readings))
  }

  /** The world after a breaker was asked. */
  function Asked(env: Environment, w: World, id: nat): World {
    var asked := AfterAsking(env.config(id), Current(w, id), env.clock(w.readings));
    w.(readings := w.readings + 1, breakers := w.breakers[id := asked])
  }

  function RunGuarded(env: Environment, w: World, id: nat): Ran {
    var asked := Asked(env, w, id);
    if !LetsThrough(env, w, id) then Ran(asked, Failure(CircuitBreakerOpen))
    else
      var answer := env.reply(|w.calls|).answer;
      var noted := Noted(env.config(id), asked.breakers[id], answer, env.clock(w.readings + 2));
      Ran(Record(w, Answered(answer)).(breakers := w.breakers[id := noted], readings := w.readings + 3),
        OutcomeOf(answer))
  }

  function RunTimed(env: Environment, w: World, duration: nat): Ran {
    var reply := env.reply(|w.calls|);
    if reply.took > duration then Ran(Record(w, Abandoned), Failure(Timeout(duration)))
    else Ran(Record(w, Answered(reply.answer)), OutcomeOf(reply.answer))
  }

  function Run(env: Environment, w: World, s: Strategy): Ran
    decreases s
  {
    match s
    case Retry(max, backoff) => RetryFrom(env, w, max, backoff, 0, false, None)
    case Fallback => Ran(w, Failure(AllFallbacksExhausted))
    case Guarded(id) => RunGuarded(env, w, id)
    case Timed(duration) => RunTimed(env, w, duration)
    case Composite(strategies) => RunChain(env, w, strategies, Failure(MaxAttemptsExceeded(1)))
  }

  /** Run strategies in order until one succeeds; otherwise a given outcome. */
  function RunChain(env: Environment, w: World, strategies: seq<Strategy>, otherwise: Outcome): Ran
    decreases strategies
  {
    if strategies == [] then Ran(w, otherwise)
    else
      var first := Run(env, w, strategies[0]);
      if first.outcome.Success? then first else RunChain(env, first.world, strategies[1..], otherwise)
  }

  datatype Plan = Plan(primary: Strategy, fallbacks: seq<Strategy>, gate: Option<nat>)

  /** A whole recovery: the primary strategy, then, if the gate lets it, the fallbacks. */
  function Recover(env: Environment, w: World, plan: Plan): Ran {
    var first := Run(env, w, plan.primary);
    if first.outcome.Success? then first
    else
      match plan.gate
      case None => RunChain(env, first.world, plan.fallbacks, first.outcome)
      case Some(id) =>
        var asked := Asked(env, first.world, id);
        if !LetsThrough(env, first.world, id) then Ran(asked, Failure(CircuitBreakerOpen))
        else RunChain(env, asked, plan.fallbacks, first.outcome)
  }

  /** A recovery in progress: the shared breakers and the operation, both updated in place. */
  class Session {
    const env: Environment
    var breakers: map<nat, Breaker>
    var calls: seq<Call>
    var readings: nat
    var slept: int

    constructor (env: Environment)
      ensures this.env == env && Value() == World(map[], [], 0, 0)
    {
      this.env := env;
      breakers, calls, readings, slept := map[], [], 0, 0;
    }

    function Value(): World
      reads this
    {
      World(breakers, calls, readings, slept)
    }

    method CallOperation() returns (answer: Result<Verdict, Error>)
      modifies this`calls
      ensures answer == env.reply(|old(calls)|).answer && Value() == Record(old(Value()), Answered(answer))
    {
      answer := env.reply(|calls|).answer;
      calls := calls + [Answered(answer)];
    }

    method AskBreaker(id: nat) returns (allowed: bool)
      modifies this`breakers, this`readings
      ensures allowed == LetsThrough(env, old(Value()), id) && Value() == Asked(env, old(Value()), id)
    {
      var c, b, now := env.config(id), Current(Value(), id), env.clock(readings);
      allowed := Allows(c, b, now);
      breakers, readings := breakers[id := AfterAsking(c, b, now)], readings + 1;
    }

    method NoteAnswer(id: nat, answer: Result<Verdict, Error>)
      modifies this`breakers, this`readings
      ensures var noted := Noted(env.config(id), Current(old(Value()), id), answer, env.clock(old(readings)));
              Value() == old(Value()).(readings := old(readings) + 1, breakers := old(breakers)[id := noted])
    {
      breakers := breakers[id := Noted(env.config(id), Current(Value(), id), answer, env.clock(readings))];
      readings := readings + 1;
    }

    method ExecuteRetry(max: nat, backoff: RecoveryBackoff) returns (outcome: Outcome)
      modifies this`calls, this`slept
      ensures Ran(Value(), outcome) == RetryFrom(env, old(Value()), max, backoff, 0, false, None)
    {
      var last: Option<Error>, hasFailure := None, false;
      for attempt := 0 to max
        invariant RetryFrom(env, old(Value()), max, backoff, 0, false, None) ==
                  RetryFrom(env, Value(), max, backoff, attempt, hasFailure, last)
      {
        if attempt > 0 {
          slept := slept + RecoveryDelay(backoff, attempt - 1);
        }
        var answer := CallOperation();
        match answer
        case Ok(v) =>
          if v.IsSuccess() {
            return Success(v);
          }
          if v.IsFailure() {
            hasFailure := true;
          }
          last := Some(NotApplicable(v));
        case Err(e) =>
          last := Some(e);
          if e.CircuitBreakerOpen? {
            return GivenUp(max, hasFailure, last);
          }
      }
      outcome := GivenUp(max, hasFailure, last);
    }

    /** The breaker is asked twice, by the strategy and by its own `execute`; the second never refuses. */
    method ExecuteGuarded(id: nat) returns (outcome: Outcome)
      modifies this
      ensures Ran(Value(), outcome) == RunGuarded(env, old(Value()), id)
    {
      ghost var c, b, now := env.config(id), Current(Value(), id), env.clock(readings);
      var allowed := AskBreaker(id);
      if !allowed {
        return Failure(CircuitBreakerOpen);
      }
      PermissionLasts(c, b, now, env.clock(readings));
      var again := AskBreaker(id);
      if !again {
        assert false;
      }
      var answer := CallOperation();
      NoteAnswer(id, answer);
      outcome := OutcomeOf(answer);
    }

    method ExecuteTimed(duration: nat) returns (outcome: Outcome)
      modifies this`calls
      ensures Ran(Value(), outcome) == RunTimed(env, old(Value()), duration)
    {
      if env.reply(|calls|).took > duration {
        calls := calls + [Abandoned];
        return Failure(Timeout(duration));
      }
      var answer := CallOperation();
      outcome := OutcomeOf(answer);
    }

    method Execute(s: Strategy) returns (outcome: Outcome)
      modifies this
      ensures Ran(Value(), outcome) == Run(env, old(Value()), s)
      decreases s
    {
      match s
      case Retry(max, backoff) => outcome := ExecuteRetry(max, backoff);
      case Fallback => outcome := Failure(AllFallbacksExhausted);
      case Guarded(id) => outcome := ExecuteGuarded(id);
      case Timed(duration) => outcome := ExecuteTimed(duration);
      case Composite(strategies) => outcome := ExecuteChain(strategies, Failure(MaxAttemptsExceeded(1)));
    }

    method ExecuteChain(strategies: seq<Strategy>, otherwise: Outcome) returns (outcome: Outcome)
      modifies this
      ensures Ran(Value(), outcome) == RunChain(env, old(Value()), strategies, otherwise)
      decreases strategies
    {
      for i := 0 to |strategies|
        invariant RunChain(env, old(Value()), strategies, otherwise) ==
                  RunChain(env, Value(), strategies[i..], otherwise)
      {
        assert strategies[i..][0] == strategies[i] && strategies[i..][1..] == strategies[i + 1..];
        outcome := Execute(strategies[i]);
        if outcome.Success? {
          return;
        }
      }
      outcome := otherwise;
    }

    method ExecutePlan(plan: Plan) returns (outcome: Outcome)
      modifies this
      ensures Ran(Value(), outcome) == Recover(env, old(Value()), plan)
    {
      outcome := Execute(plan.primary);
      if outcome.Success? {
        return;
      }
      if plan.gate.Some? {
        var allowed := AskBreaker(plan.gate.value);
        if !allowed {
          return Failure(CircuitBreakerOpen);
        }
      }
      outcome := ExecuteChain(plan.fallbacks, outcome);
    }
  }
}
