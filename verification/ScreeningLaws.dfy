/**
 * Which requests a policy turns away before it counts them, and why, on the fields of the policy alone
 * (crates/agentverify-policy/src/engine.rs).
 */
module ScreeningLaws {
  import opened Common
  import opened RateLimits
  import opened ContractValidation
  import opened ValidationLaws
  import opened PolicyEngine

  /** Users are below operators, operators below administrators, and these below the system. */
  predicate Below(a: AccessLevel, b: AccessLevel) {
    match a
    case User => b == Operator || b == Admin || b == System
    case Operator => b == Admin || b == System
    case Admin => b == System
    case System => false
  }

  /** A name fits a pattern. */
  ghost predicate Fits(p: Pattern, name: string) {
    match p
    case Exact(value) => name == value
    case Prefix(value) => exists rest :: name == value + rest
    case Suffix(value) => exists front :: name == front + value
    case Regex(compiled) => compiled.Some? && compiled.value(name)
  }

  lemma FitsIff(p: Pattern, name: string)
    ensures p.Matches(name) <==> Fits(p, name)
  {
    match p
    case Prefix(value) =>
      if value <= name {
        assert name == value + name[|value|..];
      }
    case Suffix(value) =>
      if |value| <= |name| && name[|name| - |value|..] == value {
        assert name == name[..|name| - |value|] + value;
      }
      if front :| name == front + value {
        assert name[|front|..] == value;
      }
    case _ =>
  }

  /** A policy without patterns lets every name through. */
  ghost predicate FitsAny(policy: Policy, name: string) {
    policy.allowed == [] || exists i :: 0 <= i < |policy.allowed| && Fits(policy.allowed[i], name)
  }

  predicate Requires(policy: Policy, name: string) {
    exists i :: 0 <= i < |policy.contracts| && policy.contracts[i].action == name && policy.contracts[i].required
  }

  lemma FitsAnyIff(policy: Policy, name: string)
    requires name != "" && name !in policy.blocked
    ensures policy.IsActionAllowed(name) <==> FitsAny(policy, name)
  {
    forall i | 0 <= i < |policy.allowed| ensures policy.allowed[i].Matches(name) <==> Fits(policy.allowed[i], name) {
      FitsIff(policy.allowed[i], name);
    }
  }

  lemma RequiresIff(policy: Policy, name: string)
    ensures policy.IsContractRequired(name) <==> Requires(policy, name)
  {
    if i :| 0 <= i < |policy.contracts| && policy.contracts[i].action == name && policy.contracts[i].required {
      assert policy.contracts[i] == Requirement(name, true);
    }
  }

  lemma BelowIff(a: AccessLevel, b: AccessLevel)
    ensures a.Rank() < b.Rank() <==> Below(a, b)
  {
  }

  /** The name may be used: the policy is on, and the name is there, not blocked, and fits. */
  ghost predicate NameOk(policy: Policy, name: string) {
    policy.enabled && name != "" && name !in policy.blocked && FitsAny(policy, name)
  }

  /** The level suffices. */
  predicate LevelOk(policy: Policy, r: Request) {
    r.name in policy.access ==> !Below(r.level, policy.access[r.name])
  }

  /** A required contract is there and valid. */
  ghost predicate ContractOk(policy: Policy, r: Request) {
    Requires(policy, r.name) ==> r.contract.Some? && Valid(r.contract.value)
  }

  /** Is a ruling one that only the limits give? */
  predicate ByLimits(ruling: Ruling) {
    ruling.Allowed? || ruling.Panicked? || (ruling.Denied? && ruling.violation.RateLimitExceeded?)
  }

  /** The violation a request is turned away with before it is counted, and exactly when. */
  ghost predicate TurnedAwayBy(policy: Policy, r: Request, v: Violation) {
    match v
    case ActionNotAllowed(name) =>
      name == r.name
      && (!policy.enabled || (r.name != "" && r.name !in policy.blocked && !FitsAny(policy, r.name)))
    case EmptyActionName => policy.enabled && r.name == ""
    case ActionBlocked(name) => name == r.name && policy.enabled && r.name != "" && r.name in policy.blocked
    case InsufficientAccessLevel(required, actual) =>
      && NameOk(policy, r.name) && r.name in policy.access
      && required == policy.access[r.name] && actual == r.level && Below(actual, required)
    case ContractRequired(name) =>
      name == r.name && NameOk(policy, name) && LevelOk(policy, r) && Requires(policy, name) && r.contract.None?
    case ContractInvalid(error) =>
      && NameOk(policy, r.name) && LevelOk(policy, r) && Requires(policy, r.name)
      && r.contract.Some? && RefusedBy(r.contract.value, error)
    case RateLimitExceeded(_, _, _, _) => false
  }

  lemma ScreenIs(policy: Policy, r: Request)
    ensures forall v :: Screen(policy, r) == Denied(v) <==> TurnedAwayBy(policy, r, v)
    ensures Screen(policy, r) == Allowed <==> NameOk(policy, r.name) && LevelOk(policy, r) && ContractOk(policy, r)
  {
    hide FitsAny, Requires, Validation, Valid, RefusedBy;
    if r.name != "" && r.name !in policy.blocked {
      FitsAnyIff(policy, r.name);
    }
    RequiresIff(policy, r.name);
    if r.contract.Some? {
      ValidIff(r.contract.value);
      forall error ensures Validation(r.contract.value) == Some(error) <==> RefusedBy(r.contract.value, error) {
        RefusedIff(r.contract.value, error);
      }
    }
    hide Policy.IsActionAllowed, Policy.IsContractRequired;
  }

  /** What was screened away changed nothing; what was not is ruled on by the limits. */
  lemma ScreeningDecides(policy: Policy, s: State, r: Request, now: nat, later: Reading)
    ensures var o := Evaluation(policy, s, r, now, later);
            if Screen(policy, r).Allowed? then ByLimits(o.ruling) else o == Outcome(s, Screen(policy, r))
    ensures Screen(policy, r).Allowed? || (Screen(policy, r).Denied? && !Screen(policy, r).violation.RateLimitExceeded?)
  {
    hide CheckAndIncrement, StatusOf, Validation, Policy.IsActionAllowed, Policy.IsContractRequired;
  }

  /** A request is denied with a violation other than a limit's exactly when that is its first failed check. */
  lemma DeniedBeforeLimitsIff(policy: Policy, s: State, r: Request, now: nat, later: Reading, v: Violation)
    requires !v.RateLimitExceeded?
    ensures Evaluation(policy, s, r, now, later).ruling == Denied(v) <==> TurnedAwayBy(policy, r, v)
    ensures TurnedAwayBy(policy, r, v) ==> Evaluation(policy, s, r, now, later).state == s
  {
    hide Screen, Evaluation, TurnedAwayBy;
    ScreenIs(policy, r);
    ScreeningDecides(policy, s, r, now, later);
  }

  /** The limits rule exactly on the requests whose name, level and contract are in order. */
  lemma RuledByLimitsIff(policy: Policy, s: State, r: Request, now: nat, later: Reading)
    ensures ByLimits(Evaluation(policy, s, r, now, later).ruling) <==>
            NameOk(policy, r.name) && LevelOk(policy, r) && ContractOk(policy, r)
  {
    hide Screen, Evaluation, TurnedAwayBy, NameOk, LevelOk, ContractOk;
    ScreenIs(policy, r);
    ScreeningDecides(policy, s, r, now, later);
  }

  /** The answer of a tracker, if it is asked. */
  function Asked(
    buckets: map<string, Bucket>, asked: bool, key: string, limits: map<string, Limit>, name: string, now: nat)
    : Decision<string>
  {
    if asked && name in limits then CheckAndIncrement(buckets, key, limits[name], now) else Decision(buckets, true)
  }

  /**
   * How the limits rule: the action is counted first, its key only if that was allowed and under the name and
   * the key together, and both must allow it. A denial by the key tells a count of one and the key's own limit.
   */
  lemma LimitsDecide(policy: Policy, s: State, r: Request, now: nat, later: Reading)
    requires NameOk(policy, r.name) && LevelOk(policy, r) && ContractOk(policy, r)
    ensures var o := Evaluation(policy, s, r, now, later);
            var action := Asked(s.byAction, true, r.name, policy.limits, r.name, now);
            var keyed := if r.key.Some? then r.name + ":" + r.key.value else "";
            var key := Asked(s.byKey, action.allowed && r.key.Some?, keyed, policy.keyLimits, r.name, now);
            && o.state == State(action.buckets, key.buckets)
            && (o.ruling == Allowed <==> action.allowed && key.allowed)
            && (!key.allowed ==>
                  var limit := policy.keyLimits[r.name];
                  o.ruling == Denied(RateLimitExceeded(r.name, 1, limit.maxCount, limit.window / 1_000_000_000)))
  {
    hide NameOk, LevelOk, ContractOk, TurnedAwayBy;
    ScreenIs(policy, r);
    hide Screen, CheckAndIncrement, StatusOf;
  }

  /** A request let through to the limits is ruled on alike at any higher level. */
  lemma HigherLevelsAreNotDenied(
    policy: Policy, s: State, r: Request, level: AccessLevel, now: nat, later: Reading)
    requires !Below(level, r.level) && ByLimits(Evaluation(policy, s, r, now, later).ruling)
    ensures Evaluation(policy, s, r.(level := level), now, later) == Evaluation(policy, s, r, now, later)
  {
    hide TurnedAwayBy, NameOk, Requires, Valid, ContractOk, Screen;
    var higher := r.(level := level);
    RuledByLimitsIff(policy, s, r, now, later);
    assert ContractOk(policy, higher) by {
      ContractIgnoresLevel(policy, r, level);
    }
    ScreenIs(policy, r);
    ScreenIs(policy, higher);
    hide CheckAndIncrement, OverLimit;
  }

  lemma ContractIgnoresLevel(policy: Policy, r: Request, level: AccessLevel)
    ensures ContractOk(policy, r) <==> ContractOk(policy, r.(level := level))
  {
  }
}
