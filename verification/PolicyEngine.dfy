/**
 * Policy evaluation (crates/agentverify-policy/src/engine.rs): a fixed order of checks, the last two
 * of which count the action against its own limit and against the limit of its idempotency key.
 */
module PolicyEngine {
  import opened Common
  import opened RateLimits
  import opened ContractValidation

  datatype AccessLevel = User | Operator | Admin | System {
    function Rank(): nat {
      match this
      case User => 0
      case Operator => 1
      case Admin => 2
      case System => 3
    }
  }

  datatype Pattern =
    | Exact(value: string)
    | Prefix(value: string)
    | Suffix(value: string)
    | Regex(compiled: Option<string -> bool>)
  {
    predicate Matches(name: string) {
      match this
      case Exact(value) => name == value
      case Prefix(value) => value <= name
      case Suffix(value) => |value| <= |name| && name[|name| - |value|..] == value
      case Regex(compiled) => compiled.Some? && compiled.value(name)
    }
  }

  datatype Requirement = Requirement(action: string, required: bool)

  datatype Policy = Policy(
    enabled: bool,
    allowed: seq<Pattern>,
    blocked: seq<string>,
    limits: map<string, Limit>,
    keyLimits: map<string, Limit>,
    contracts: seq<Requirement>,
    access: map<string, AccessLevel>)
  {
    predicate IsActionAllowed(name: string) {
      name != "" && name !in blocked && (allowed == [] || exists i :: 0 <= i < |allowed| && allowed[i].Matches(name))
    }

    predicate IsContractRequired(name: string) {
      exists i :: 0 <= i < |contracts| && contracts[i] == Requirement(name, true)
    }
  }

  datatype Request = Request(name: string, key: Option<string>, contract: Option<Declared>, level: AccessLevel)

  datatype Violation =
    | ActionNotAllowed(name: string)
    | ActionBlocked(name: string)
    | EmptyActionName
    | ContractRequired(name: string)
    | ContractInvalid(error: ValidationError)
    | RateLimitExceeded(name: string, currentCount: nat, limit: nat, windowSecs: nat)
    | InsufficientAccessLevel(required: AccessLevel, actual: AccessLevel)

  /** An evaluation can also panic, while it reads the status it would report. */
  datatype Ruling = Allowed | Denied(violation: Violation) | Panicked

  /** A required contract must be there and be valid. */
  function ScreenContract(r: Request): Ruling {
    match r.contract
    case None => Denied(ContractRequired(r.name))
    case Some(d) =>
      match Validation(d)
      case Some(error) => Denied(ContractInvalid(error))
      case None => Allowed
  }

  /** The checks that count nothing, in order; the first that fails names the violation. */
  function Screen(policy: Policy, r: Request): Ruling {
    if !policy.enabled then Denied(ActionNotAllowed(r.name))
    else if r.name == "" then Denied(Violation.EmptyActionName)
    else if r.name in policy.blocked then Denied(ActionBlocked(r.name))
    else if !policy.IsActionAllowed(r.name) then Denied(ActionNotAllowed(r.name))
    else if r.name in policy.access && r.level.Rank() < policy.access[r.name].Rank() then
      Denied(InsufficientAccessLevel(policy.access[r.name], r.level))
    else if policy.IsContractRequired(r.name) then ScreenContract(r)
    else Allowed
  }

  datatype State = State(byAction: map<string, Bucket>, byKey: map<string, Bucket>)

  datatype Outcome = Outcome(state: State, ruling: Ruling)

  /** The denial of an action over its limit, with the status read after the call was counted. */
  function OverLimit(buckets: map<string, Bucket>, name: string, limit: Limit, t: Reading): Ruling {
    match StatusOf(buckets, name, limit, t)
    case None => Panicked
    case Some(status) =>
      var secs := Max(status.windowSecsRemaining, limit.window / NANOS_PER_SEC);
      Denied(RateLimitExceeded(name, status.current, status.limit, secs))
  }

  /** Does an evaluation count its action against the action's limit? */
  predicate CountsAction(policy: Policy, r: Request) {
    Screen(policy, r).Allowed? && r.name in policy.limits
  }

  function ActionCheck(policy: Policy, buckets: map<string, Bucket>, r: Request, now: nat): Decision<string> {
    if CountsAction(policy, r) then CheckAndIncrement(buckets, r.name, policy.limits[r.name], now)
    else Decision(buckets, Screen(policy, r).Allowed?)
  }

  /** Does it count against the limit of its key? Only when everything before let it pass. */
  predicate CountsKey(policy: Policy, s: State, r: Request, now: nat) {
    ActionCheck(policy, s.byAction, r, now).allowed && r.name in policy.keyLimits && r.key.Some?
  }

  /** An evaluation reads the clock for its checks, and later again for the status a denial reports. */
  function Evaluation(policy: Policy, s: State, r: Request, now: nat, later: Reading): Outcome {
    var first := ActionCheck(policy, s.byAction, r, now);
    if Screen(policy, r).Denied? then Outcome(s, Screen(policy, r))
    else if CountsAction(policy, r) && !first.allowed then
      Outcome(s.(byAction := first.buckets), OverLimit(first.buckets, r.name, policy.limits[r.name], later))
    else if CountsKey(policy, s, r, now) then
      var limit := policy.keyLimits[r.name];
      var second := CheckAndIncrement(s.byKey, EffectiveKey(r.name, r.key.value), limit, now);
      Outcome(State(first.buckets, second.buckets),
              if second.allowed then Allowed
              else Denied(RateLimitExceeded(r.name, 1, limit.maxCount, limit.window / NANOS_PER_SEC)))
    else Outcome(s.(byAction := first.buckets), Allowed)
  }

  class Engine {
    const actions: RateLimitTracker
    const keys: IdempotencyRateLimitTracker

    constructor ()
      ensures fresh(actions) && fresh(keys) && Contents() == State(map[], map[])
    {
      actions := new RateLimitTracker();
      keys := new IdempotencyRateLimitTracker();
    }

    function Contents(): State
      reads actions, keys
    {
      State(actions.buckets, keys.buckets)
    }

    method EvaluateWithAccess(policy: Policy, r: Request, now: nat, later: Reading) returns (ruling: Ruling)
      modifies actions, keys
      ensures Outcome(Contents(), ruling) == Evaluation(policy, old(Contents()), r, now, later)
    {
      if !policy.enabled {
        return Denied(ActionNotAllowed(r.name));
      }
      if r.name == "" {
        return Denied(Violation.EmptyActionName);
      }
      if r.name in policy.blocked {
        return Denied(ActionBlocked(r.name));
      }
      if !policy.IsActionAllowed(r.name) {
        return Denied(ActionNotAllowed(r.name));
      }
      if r.name in policy.access {
        var required := policy.access[r.name];
        if r.level.Rank() < required.Rank() {
          return Denied(InsufficientAccessLevel(required, r.level));
        }
      }
      if policy.IsContractRequired(r.name) {
        if r.contract.None? {
          return Denied(ContractRequired(r.name));
        }
        var error := Validate(r.contract.value);
        if error.Some? {
          return Denied(ContractInvalid(error.value));
        }
      }
      ruling := CheckLimits(policy, r, now, later);
    }

    method CheckLimits(policy: Policy, r: Request, now: nat, later: Reading) returns (ruling: Ruling)
      requires Screen(policy, r).Allowed?
      modifies actions, keys
      ensures Outcome(Contents(), ruling) == Evaluation(policy, old(Contents()), r, now, later)
    {
      if r.name in policy.limits {
        var limit := policy.limits[r.name];
        var allowed := actions.CheckRateLimit(r.name, limit, now);
        if !allowed {
          var status := RateLimitStatus(r.name, limit, later);
          if status.None? {
            return Panicked;
          }
          var secs := Max(status.value.windowSecsRemaining, limit.window / NANOS_PER_SEC);
          return Denied(RateLimitExceeded(r.name, status.value.current, status.value.limit, secs));
        }
      }
      if r.name in policy.keyLimits {
        var limit := policy.keyLimits[r.name];
        if r.key.Some? {
          var allowed := keys.CheckRateLimit(r.key.value, r.name, limit, now);
          if !allowed {
            return Denied(RateLimitExceeded(r.name, 1, limit.maxCount, limit.window / NANOS_PER_SEC));
          }
        }
      }
      return Allowed;
    }

    /** No status is a panic. */
    method RateLimitStatus(name: string, limit: Limit, t: Reading) returns (status: Option<Status>)
      ensures status == StatusOf(Contents().byAction, name, limit, t)
    {
      if name in actions.buckets {
        var b := actions.buckets[name];
        if Elapsed(b, t.first) < limit.window {
          if Elapsed(b, t.second) > limit.window {
            return None;
          }
          return Some(Status(b.count, limit.maxCount, Max(0, limit.maxCount - b.count),
                             (limit.window - Elapsed(b, t.second)) / NANOS_PER_SEC));
        }
      }
      return Some(Status(0, limit.maxCount, limit.maxCount, 0));
    }

    method CleanUp(now: nat)
      modifies actions, keys
      ensures Contents() == State(Cleanup(old(Contents()).byAction, now), Cleanup(old(Contents()).byKey, now))
    {
      actions.CleanupExpired(now);
      keys.CleanupExpired(now);
    }
  }
}
