/** Cleanups of a policy engine are invisible: no ruling, and no count a ruling reports, depends on them. */
module PolicyCleanup {
  import opened RateLimits
  import opened RateLimitLaws
  import opened PolicyEngine
  import opened PolicyLaws

  /** The rulings of an engine, in order. */
  function Rulings(policy: Policy, uses: seq<Use>): seq<Ruling> {
    if uses == [] then []
    else
      var pre, use := uses[..|uses| - 1], uses[|uses| - 1];
      Rulings(policy, pre) +
      if use.Evaluate? then [Evaluation(policy, EngineAfter(policy, pre), use.request, use.at, use.read).ruling] else []
  }

  function WithoutCleanups(uses: seq<Use>): seq<Use> {
    if uses == [] then []
    else WithoutCleanups(uses[..|uses| - 1]) + if uses[|uses| - 1].Evaluate? then [uses[|uses| - 1]] else []
  }

  /** One limit for each string under which the per-key tracker files anything. */
  ghost predicate Files(policy: Policy, limits: string -> Limit) {
    forall name, key :: name in policy.keyLimits ==> limits(EffectiveKey(name, key)) == policy.keyLimits[name]
  }

  function ActionLimits(policy: Policy): string -> Limit {
    name => if name in policy.limits then policy.limits[name] else Limit(0, 0)
  }

  function UpToColon(s: string): string {
    if s == "" || s[0] == ':' then "" else [s[0]] + UpToColon(s[1..])
  }

  lemma {:induction false} UpToColonOfKey(name: string, key: string)
    requires ':' !in name
    ensures UpToColon(EffectiveKey(name, key)) == name
  {
    if name != "" {
      UpToColonOfKey(name[1..], key);
      assert EffectiveKey(name, key)[1..] == EffectiveKey(name[1..], key);
    }
  }

  /** Policies whose per-key limits are on colon-free names file every string under one limit. */
  lemma ColonFreeNamesFile(policy: Policy) returns (limits: string -> Limit)
    requires forall name :: name in policy.keyLimits ==> ':' !in name
    ensures Files(policy, limits)
  {
    limits := s => if UpToColon(s) in policy.keyLimits then policy.keyLimits[UpToColon(s)] else Limit(0, 0);
    forall name, key | name in policy.keyLimits ensures limits(EffectiveKey(name, key)) == policy.keyLimits[name] {
      UpToColonOfKey(name, key);
    }
  }

  /** Both trackers of one engine are swept forms of the other's. */
  ghost predicate Swept(policy: Policy, limits: string -> Limit, s: State, t: State, now: nat) {
    SweptOf(s.byAction, t.byAction, ActionLimits(policy), now) && SweptOf(s.byKey, t.byKey, limits, now)
  }

  lemma SweptLater<K(!new)>(swept: map<K, Bucket>, all: map<K, Bucket>, limits: K -> Limit, before: nat, now: nat)
    requires SweptOf(swept, all, limits, before) && before <= now
    ensures SweptOf(swept, all, limits, now)
  {
  }

  lemma SweptStatus<K(!new)>(swept: map<K, Bucket>, all: map<K, Bucket>, limits: K -> Limit, key: K, t: Reading)
    requires SweptOf(swept, all, limits, t.first)
    ensures StatusOf(swept, key, limits(key), t) == StatusOf(all, key, limits(key), t)
  {
  }

  lemma ActionCheckKeepsSwept(
    policy: Policy, a: map<string, Bucket>, b: map<string, Bucket>, r: Request, before: nat, now: nat)
    requires SweptOf(a, b, ActionLimits(policy), before) && before <= now
    ensures var x, y := ActionCheck(policy, a, r, now), ActionCheck(policy, b, r, now);
            x.allowed == y.allowed && SweptOf(x.buckets, y.buckets, ActionLimits(policy), now)
  {
    hide Screen;
    if CountsAction(policy, r) {
      CallKeepsSwept(a, b, ActionLimits(policy), before, r.name, now);
    } else {
      SweptLater(a, b, ActionLimits(policy), before, now);
    }
  }

  lemma EvaluationKeepsSwept(
    policy: Policy, limits: string -> Limit, s: State, t: State, r: Request, before: nat, now: nat, later: Reading)
    requires Files(policy, limits) && Swept(policy, limits, s, t, before) && before <= now <= later.first
    ensures var x, y := Evaluation(policy, s, r, now, later), Evaluation(policy, t, r, now, later);
            x.ruling == y.ruling && Swept(policy, limits, x.state, y.state, now)
  {
    hide Screen, CheckAndIncrement, SweptOf, StatusOf;
    ActionCheckKeepsSwept(policy, s.byAction, t.byAction, r, before, now);
    SweptLater(s.byAction, t.byAction, ActionLimits(policy), before, now);
    SweptLater(s.byKey, t.byKey, limits, before, now);
    if CountsAction(policy, r) {
      var x, y := ActionCheck(policy, s.byAction, r, now).buckets, ActionCheck(policy, t.byAction, r, now).buckets;
      SweptLater(x, y, ActionLimits(policy), now, later.first);
      SweptStatus(x, y, ActionLimits(policy), r.name, later);
    }
    if CountsKey(policy, s, r, now) {
      CallKeepsSwept(s.byKey, t.byKey, limits, before, EffectiveKey(r.name, r.key.value), now);
    }
  }

  lemma CleanupKeepsSwept(policy: Policy, limits: string -> Limit, s: State, t: State, before: nat, now: nat)
    requires Swept(policy, limits, s, t, before) && before <= now
    ensures Swept(policy, limits, State(Cleanup(s.byAction, now), Cleanup(s.byKey, now)), t, now)
  {
    hide SweptOf;
    SweepKeepsSwept(s.byAction, t.byAction, ActionLimits(policy), before, now);
    SweepKeepsSwept(s.byKey, t.byKey, limits, before, now);
  }

  lemma RulingsOfEvaluation(policy: Policy, uses: seq<Use>, use: Use)
    requires use.Evaluate?
    ensures var o := Evaluation(policy, EngineAfter(policy, uses), use.request, use.at, use.read);
            Rulings(policy, uses + [use]) == Rulings(policy, uses) + [o.ruling]
              && EngineAfter(policy, uses + [use]) == o.state
    ensures WithoutCleanups(uses + [use]) == WithoutCleanups(uses) + [use]
  {
    hide Evaluation;
    assert (uses + [use])[..|uses|] == uses;
  }

  lemma RulingsOfCleanup(policy: Policy, uses: seq<Use>, use: Use)
    requires use.CleanUp?
    ensures var s := EngineAfter(policy, uses);
            && Rulings(policy, uses + [use]) == Rulings(policy, uses)
            && EngineAfter(policy, uses + [use]) == State(Cleanup(s.byAction, use.at), Cleanup(s.byKey, use.at))
    ensures WithoutCleanups(uses + [use]) == WithoutCleanups(uses)
  {
    hide Evaluation;
    assert (uses + [use])[..|uses|] == uses;
  }

  /** With and without its cleanups an engine rules the same, request by request. */
  lemma {:induction false} EngineCleanupIsInvisible(policy: Policy, limits: string -> Limit, uses: seq<Use>)
    requires InOrder(uses) && Files(policy, limits)
    ensures Rulings(policy, uses) == Rulings(policy, WithoutCleanups(uses))
    ensures Swept(policy, limits, EngineAfter(policy, uses), EngineAfter(policy, WithoutCleanups(uses)), LastUse(uses))
  {
    hide Evaluation;
    if uses != [] {
      hide Swept, Rulings, EngineAfter, WithoutCleanups;
      var n := |uses| - 1;
      var pre, use := uses[..n], uses[n];
      EngineCleanupIsInvisible(policy, limits, pre);
      assert LastUse(pre) <= use.at && uses == pre + [use];
      var s, t := EngineAfter(policy, pre), EngineAfter(policy, WithoutCleanups(pre));
      if use.Evaluate? {
        RulingsOfEvaluation(policy, pre, use);
        RulingsOfEvaluation(policy, WithoutCleanups(pre), use);
        EvaluationKeepsSwept(policy, limits, s, t, use.request, LastUse(pre), use.at, use.read);
      } else {
        RulingsOfCleanup(policy, pre, use);
        CleanupKeepsSwept(policy, limits, s, t, LastUse(pre), use.at);
      }
    }
  }

  /** Nor does the status of an action tell whether there was a cleanup. */
  lemma EngineStatusIsUnchanged(policy: Policy, limits: string -> Limit, uses: seq<Use>, name: string, t: Reading)
    requires InOrder(uses) && Files(policy, limits) && LastUse(uses) <= t.first && name in policy.limits
    ensures StatusOf(EngineAfter(policy, uses).byAction, name, policy.limits[name], t) ==
            StatusOf(EngineAfter(policy, WithoutCleanups(uses)).byAction, name, policy.limits[name], t)
  {
    EngineCleanupIsInvisible(policy, limits, uses);
    var a, b := EngineAfter(policy, uses), EngineAfter(policy, WithoutCleanups(uses));
    SweptLater(a.byAction, b.byAction, ActionLimits(policy), LastUse(uses), t.first);
    SweptStatus(a.byAction, b.byAction, ActionLimits(policy), name, t);
  }
}
