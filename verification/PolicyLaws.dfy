/** What a policy engine guarantees over any sequence of evaluations and cleanups under one policy. */
module PolicyLaws {
  import opened Common
  import opened RateLimits
  import opened RateLimitPairs
  import opened PolicyEngine

  datatype Use = Evaluate(request: Request, at: nat, read: Reading) | CleanUp(at: nat)

  ghost predicate InOrder(uses: seq<Use>) {
    && (forall i, j :: 0 <= i <= j < |uses| ==> uses[i].at <= uses[j].at)
    && (forall i :: 0 <= i < |uses| && uses[i].Evaluate? ==> uses[i].at <= uses[i].read.first <= uses[i].read.second)
  }

  function UseEngine(policy: Policy, s: State, use: Use): State {
    match use
    case Evaluate(r, at, read) => Evaluation(policy, s, r, at, read).state
    case CleanUp(at) => State(Cleanup(s.byAction, at), Cleanup(s.byKey, at))
  }

  /** The trackers after a sequence of uses of a new engine. */
  function EngineAfter(policy: Policy, uses: seq<Use>): State {
    if uses == [] then State(map[], map[])
    else UseEngine(policy, EngineAfter(policy, uses[..|uses| - 1]), uses[|uses| - 1])
  }

  /** Was the last use an evaluation, and was its request allowed? */
  predicate LastPassed(policy: Policy, uses: seq<Use>)
    requires uses != []
  {
    var n := |uses| - 1;
    uses[n].Evaluate?
      && Evaluation(policy, EngineAfter(policy, uses[..n]), uses[n].request, uses[n].at, uses[n].read).ruling.Allowed?
  }

  /** Requests for an action allowed from one time to another, both included; for one key only, or for any. */
  function Passed(policy: Policy, uses: seq<Use>, name: string, key: Option<string>, from: int, to: int): nat {
    if uses == [] then 0
    else
      var n := |uses| - 1;
      Passed(policy, uses[..n], name, key, from, to) +
      if LastPassed(policy, uses) && from <= uses[n].at <= to && uses[n].request.name == name
         && (key.Some? ==> uses[n].request.key == key)
      then 1 else 0
  }

  /** What a use does to the tracker by action. */
  function ActionOp(policy: Policy, use: Use): seq<Op<string>> {
    match use
    case Evaluate(r, at, _) => if CountsAction(policy, r) then [Call(r.name, policy.limits[r.name], at)] else []
    case CleanUp(at) => [Sweep(at)]
  }

  function ActionOps(policy: Policy, uses: seq<Use>): seq<Op<string>> {
    if uses == [] then []
    else ActionOps(policy, uses[..|uses| - 1]) + ActionOp(policy, uses[|uses| - 1])
  }

  /** What a use does to the tracker by key, from a state of the engine. */
  function KeyOp(policy: Policy, s: State, use: Use): seq<Op<string>> {
    match use
    case Evaluate(r, at, _) =>
      if CountsKey(policy, s, r, at) then [Call(EffectiveKey(r.name, r.key.value), policy.keyLimits[r.name], at)]
      else []
    case CleanUp(at) => [Sweep(at)]
  }

  function KeyOps(policy: Policy, uses: seq<Use>): seq<Op<string>> {
    if uses == [] then []
    else
      var pre := uses[..|uses| - 1];
      KeyOps(policy, pre) + KeyOp(policy, EngineAfter(policy, pre), uses[|uses| - 1])
  }

  /** A request is allowed exactly when the screen, its action's limit and its key's limit let it pass. */
  lemma AllowedMeansAllPassed(policy: Policy, s: State, r: Request, now: nat, later: Reading)
    ensures Evaluation(policy, s, r, now, later).ruling.Allowed? <==>
            && Screen(policy, r).Allowed?
            && (CountsAction(policy, r) ==> CheckAndIncrement(s.byAction, r.name, policy.limits[r.name], now).allowed)
            && (CountsKey(policy, s, r, now) ==>
                  CheckAndIncrement(s.byKey, EffectiveKey(r.name, r.key.value), policy.keyLimits[r.name], now).allowed)
  {
  }

  function ApplyAny(buckets: map<string, Bucket>, ops: seq<Op<string>>): map<string, Bucket> {
    if ops == [] then buckets else Apply(buckets, ops[0])
  }

  lemma UseOnTrackers(policy: Policy, s: State, use: Use)
    ensures UseEngine(policy, s, use) ==
            State(ApplyAny(s.byAction, ActionOp(policy, use)), ApplyAny(s.byKey, KeyOp(policy, s, use)))
  {
  }

  lemma AfterOfOne<K>(ops: seq<Op<K>>, op: Op<K>)
    ensures After(ops + [op]) == Apply(After(ops), op)
  {
    assert (ops + [op])[..|ops|] == ops;
  }

  lemma AfterOfAny(ops: seq<Op<string>>, more: seq<Op<string>>)
    requires |more| <= 1
    ensures After(ops + more) == ApplyAny(After(ops), more)
  {
    if more == [] {
      assert ops + more == ops;
    } else {
      AfterOfOne(ops, more[0]);
      assert ops + more == ops + [more[0]];
    }
  }

  lemma AtMostOneOp(policy: Policy, s: State, use: Use)
    ensures |ActionOp(policy, use)| <= 1 && |KeyOp(policy, s, use)| <= 1
  {
  }

  lemma NothingYet<K>()
    ensures After<K>([]) == map[]
  {
  }

  /** Each tracker of the engine has seen exactly its own projection of the uses. */
  lemma {:induction false} TrackersFollow(policy: Policy, uses: seq<Use>)
    ensures EngineAfter(policy, uses) == State(After(ActionOps(policy, uses)), After(KeyOps(policy, uses)))
  {
    hide UseEngine, ActionOp, KeyOp, ApplyAny, After;
    if uses == [] {
      NothingYet<string>();
    } else {
      var pre, use := uses[..|uses| - 1], uses[|uses| - 1];
      TrackersFollow(policy, pre);
      var s := EngineAfter(policy, pre);
      UseOnTrackers(policy, s, use);
      AtMostOneOp(policy, s, use);
      AfterOfAny(ActionOps(policy, pre), ActionOp(policy, use));
      AfterOfAny(KeyOps(policy, pre), KeyOp(policy, s, use));
    }
  }

  function LastUse(uses: seq<Use>): nat {
    if uses == [] then 0 else uses[|uses| - 1].at
  }

  lemma OneMoreInOrder<K>(ops: seq<Op<K>>, op: Op<K>)
    requires Chronological(ops) && LastTime(ops) <= op.at
    ensures Chronological(ops + [op])
  {
    var all := ops + [op];
    forall i, j | 0 <= i <= j < |all| ensures all[i].at <= all[j].at {
      if i < |ops| {
        assert ops[i].at <= ops[|ops| - 1].at;
      }
    }
  }

  lemma {:induction false} ActionOpsShape(policy: Policy, uses: seq<Use>, name: string)
    requires InOrder(uses)
    ensures Chronological(ActionOps(policy, uses)) && LastTime(ActionOps(policy, uses)) <= LastUse(uses)
    ensures name in policy.limits ==> FixedLimit(ActionOps(policy, uses), name, policy.limits[name])
  {
    if uses != [] {
      var n := |uses| - 1;
      ActionOpsShape(policy, uses[..n], name);
      var ops, more := ActionOps(policy, uses[..n]), ActionOp(policy, uses[n]);
      assert LastUse(uses[..n]) <= LastUse(uses);
      if more == [] {
        assert ops + more == ops;
      } else {
        OneMoreInOrder(ops, more[0]);
        assert ops + more == ops + [more[0]];
      }
    }
  }

  /** No two actions with different limits per key are filed under the key of this pair. */
  ghost predicate FiledAlone(policy: Policy, name: string, key: string)
    requires name in policy.keyLimits
  {
    forall other, k ::
      other != "" && other in policy.keyLimits && EffectiveKey(other, k) == EffectiveKey(name, key) ==>
        policy.keyLimits[other] == policy.keyLimits[name]
  }

  lemma ColonFreeNamesAreFiledAlone(policy: Policy, name: string, key: string)
    requires name in policy.keyLimits && forall other :: other in policy.keyLimits ==> ':' !in other
    ensures FiledAlone(policy, name, key)
  {
    forall other, k | other in policy.keyLimits && EffectiveKey(other, k) == EffectiveKey(name, key)
      ensures policy.keyLimits[other] == policy.keyLimits[name]
    {
      ColonFreeActionsDoNotShare(other, k, name, key);
    }
  }

  lemma KeyOpIsFixed(policy: Policy, s: State, use: Use, name: string, key: string)
    requires name in policy.keyLimits && FiledAlone(policy, name, key)
    ensures var more := KeyOp(policy, s, use);
            && |more| <= 1
            && (more != [] ==> more[0].at == use.at)
            && (more != [] && more[0].Call? && more[0].key == EffectiveKey(name, key) ==>
                  more[0].limit == policy.keyLimits[name])
  {
  }

  lemma OneMoreIsFixed<K>(ops: seq<Op<K>>, op: Op<K>, key: K, limit: Limit)
    requires FixedLimit(ops, key, limit) && (op.Call? && op.key == key ==> op.limit == limit)
    ensures FixedLimit(ops + [op], key, limit)
  {
  }

  lemma {:induction false} KeyOpsShape(policy: Policy, uses: seq<Use>, name: string, key: string)
    requires InOrder(uses) && name in policy.keyLimits && FiledAlone(policy, name, key)
    ensures Chronological(KeyOps(policy, uses)) && LastTime(KeyOps(policy, uses)) <= LastUse(uses)
    ensures FixedLimit(KeyOps(policy, uses), EffectiveKey(name, key), policy.keyLimits[name])
  {
    if uses != [] {
      var n := |uses| - 1;
      KeyOpsShape(policy, uses[..n], name, key);
      assert LastUse(uses[..n]) <= LastUse(uses);
      hide KeyOp, EngineAfter, FiledAlone, EffectiveKey, Chronological, FixedLimit, InOrder;
      var ops, s := KeyOps(policy, uses[..n]), EngineAfter(policy, uses[..n]);
      var more := KeyOp(policy, s, uses[n]);
      KeyOpIsFixed(policy, s, uses[n], name, key);
      if more == [] {
        assert ops + more == ops;
      } else {
        OneMoreInOrder(ops, more[0]);
        OneMoreIsFixed(ops, more[0], EffectiveKey(name, key), policy.keyLimits[name]);
        assert ops + more == ops + [more[0]];
      }
    }
  }

  lemma BetweenOfOne<K>(ops: seq<Op<K>>, op: Op<K>, key: K, from: int, to: int)
    ensures AllowedBetween(ops, key, from, to) <= AllowedBetween(ops + [op], key, from, to)
    ensures op.Call? && op.key == key && from <= op.at <= to
            && CheckAndIncrement(After(ops), key, op.limit, op.at).allowed ==>
              AllowedBetween(ops + [op], key, from, to) == AllowedBetween(ops, key, from, to) + 1
  {
    assert (ops + [op])[..|ops|] == ops;
  }

  lemma PassingCountsAction(policy: Policy, s: State, use: Use, ops: seq<Op<string>>, name: string, from: int, to: int)
    requires name in policy.limits && After(ops) == s.byAction
    ensures var more := ActionOp(policy, use);
            AllowedBetween(ops + more, name, from, to) >=
            AllowedBetween(ops, name, from, to) +
            if use.Evaluate? && Evaluation(policy, s, use.request, use.at, use.read).ruling.Allowed?
              && from <= use.at <= to
               && use.request.name == name
            then 1 else 0
  {
    var more := ActionOp(policy, use);
    if use.Evaluate? {
      AllowedMeansAllPassed(policy, s, use.request, use.at, use.read);
    }
    if more == [] {
      assert ops + more == ops;
    } else {
      BetweenOfOne(ops, more[0], name, from, to);
      assert ops + more == ops + [more[0]];
    }
  }

  lemma {:induction false} PassedWereAllowed(policy: Policy, uses: seq<Use>, name: string, from: int, to: int)
    requires name in policy.limits
    ensures Passed(policy, uses, name, None, from, to) <= AllowedBetween(ActionOps(policy, uses), name, from, to)
  {
    if uses != [] {
      var n := |uses| - 1;
      hide Evaluation, ActionOp, AllowedBetween, After;
      PassedWereAllowed(policy, uses[..n], name, from, to);
      TrackersFollow(policy, uses[..n]);
      var s, ops := EngineAfter(policy, uses[..n]), ActionOps(policy, uses[..n]);
      PassingCountsAction(policy, s, uses[n], ops, name, from, to);
    }
  }

  lemma PassingCountsKey(
    policy: Policy, s: State, use: Use, ops: seq<Op<string>>, name: string, key: string, from: int, to: int)
    requires name in policy.keyLimits && After(ops) == s.byKey
    ensures var more := KeyOp(policy, s, use);
            AllowedBetween(ops + more, EffectiveKey(name, key), from, to) >=
            AllowedBetween(ops, EffectiveKey(name, key), from, to) +
            if use.Evaluate? && Evaluation(policy, s, use.request, use.at, use.read).ruling.Allowed?
              && from <= use.at <= to
               && use.request.name == name && use.request.key == Some(key)
            then 1 else 0
  {
    var more := KeyOp(policy, s, use);
    if use.Evaluate? {
      AllowedMeansAllPassed(policy, s, use.request, use.at, use.read);
    }
    if more == [] {
      assert ops + more == ops;
    } else {
      BetweenOfOne(ops, more[0], EffectiveKey(name, key), from, to);
      assert ops + more == ops + [more[0]];
    }
  }

  lemma {:induction false} PassedWereAllowedByKey(
    policy: Policy, uses: seq<Use>, name: string, key: string, from: int, to: int)
    requires name in policy.keyLimits
    ensures Passed(policy, uses, name, Some(key), from, to) <=
            AllowedBetween(KeyOps(policy, uses), EffectiveKey(name, key), from, to)
  {
    if uses != [] {
      var n := |uses| - 1;
      hide Evaluation, KeyOp, AllowedBetween, EffectiveKey, After;
      PassedWereAllowedByKey(policy, uses[..n], name, key, from, to);
      TrackersFollow(policy, uses[..n]);
      PassingCountsKey(policy, EngineAfter(policy, uses[..n]), uses[n], KeyOps(policy, uses[..n]), name, key, from, to);
    }
  }

  /** At most twice an action's maximum is allowed within any interval as long as its window. */
  lemma ActionLimitIsKept(policy: Policy, uses: seq<Use>, name: string, t: int)
    requires InOrder(uses) && name in policy.limits
    requires policy.limits[name].window > 0 || policy.limits[name].maxCount == 0
    ensures Passed(policy, uses, name, None, t, t + policy.limits[name].window) <= 2 * policy.limits[name].maxCount
  {
    hide ActionOps, Passed, AllowedBetween, After, Chronological, FixedLimit, InOrder;
    PassedWereAllowed(policy, uses, name, t, t + policy.limits[name].window);
    ActionOpsShape(policy, uses, name);
    AtMostTwicePerWindow(ActionOps(policy, uses), name, policy.limits[name], t);
  }

  /** Likewise for each idempotency key, if no action with another limit is filed under the same string. */
  lemma KeyLimitIsKept(policy: Policy, uses: seq<Use>, name: string, key: string, t: int)
    requires InOrder(uses) && name in policy.keyLimits
    requires policy.keyLimits[name].window > 0 || policy.keyLimits[name].maxCount == 0
    requires FiledAlone(policy, name, key)
    ensures Passed(policy, uses, name, Some(key), t, t + policy.keyLimits[name].window) <=
            2 * policy.keyLimits[name].maxCount
  {
    hide KeyOps, Passed, AllowedBetween, FiledAlone, EffectiveKey, After, Chronological, FixedLimit, InOrder;
    PassedWereAllowedByKey(policy, uses, name, key, t, t + policy.keyLimits[name].window);
    KeyOpsShape(policy, uses, name, key);
    AtMostTwicePerWindow(KeyOps(policy, uses), EffectiveKey(name, key), policy.keyLimits[name], t);
  }

  /** What is reported of a full bucket, by when its window ends. */
  function FullReport(name: string, limit: Limit, start: nat, t: Reading): Ruling {
    var ends := start + limit.window;
    if t.first < ends < t.second then Panicked
    else
      var count := if t.first < ends then limit.maxCount else 0;
      Denied(RateLimitExceeded(name, count, limit.maxCount, limit.window / NANOS_PER_SEC))
  }

  lemma FullBucketStatus(buckets: map<string, Bucket>, name: string, limit: Limit, now: nat, later: Reading)
    requires name in buckets ==>
             buckets[name].limit == limit && buckets[name].count <= limit.maxCount && buckets[name].start <= now
    requires !CheckAndIncrement(buckets, name, limit, now).allowed && now <= later.first <= later.second
    ensures var after := CheckAndIncrement(buckets, name, limit, now).buckets;
            OverLimit(after, name, limit, later) == FullReport(name, limit, after[name].start, later)
  {
    var b := CheckAndIncrement(buckets, name, limit, now).buckets[name];
    assert b.count == limit.maxCount && b.start <= now;
    QuotientsGrow(limit.window - Elapsed(b, later.second), limit.window);
  }

  lemma QuotientsGrow(a: int, b: int)
    requires a <= b
    ensures a / NANOS_PER_SEC <= b / NANOS_PER_SEC
  {
  }

  /**
   * What a request over its action's limit is told: the limit as its count, unless its window has ended by
   * the first reading of the status, and the whole window in either case. The evaluation panics exactly when
   * the window ends strictly between the two readings.
   */
  lemma DenialsReportTheLimit(policy: Policy, uses: seq<Use>, r: Request, now: nat, later: Reading)
    requires InOrder(uses) && LastUse(uses) <= now <= later.first <= later.second && CountsAction(policy, r)
    requires !ActionCheck(policy, EngineAfter(policy, uses).byAction, r, now).allowed
    ensures var o := Evaluation(policy, EngineAfter(policy, uses), r, now, later);
            && r.name in o.state.byAction
            && o.ruling == FullReport(r.name, policy.limits[r.name], o.state.byAction[r.name].start, later)
  {
    hide ActionOps, KeyOps, EngineAfter, Screen, OverLimit, Chronological, FixedLimit, InOrder;
    TrackersFollow(policy, uses);
    ActionOpsShape(policy, uses, r.name);
    BucketsKeepTheirLimit(ActionOps(policy, uses), r.name, policy.limits[r.name]);
    FullBucketStatus(EngineAfter(policy, uses).byAction, r.name, policy.limits[r.name], now, later);
  }

  lemma {:induction false} BucketsKeepTheirLimit<K>(ops: seq<Op<K>>, key: K, limit: Limit)
    requires Chronological(ops) && FixedLimit(ops, key, limit)
    ensures key in After(ops) ==>
              After(ops)[key].limit == limit && After(ops)[key].count <= limit.maxCount
                && After(ops)[key].start <= LastTime(ops)
  {
    if ops != [] {
      BucketsKeepTheirLimit(ops[..|ops| - 1], key, limit);
    }
  }

  /** A policy that limits two actions per key, and nothing else. */
  function TwoKeyLimits(a: string, b: string): Policy {
    Policy(true, [], [], map[], map[a := Limit(1, 1), b := Limit(0, 1)], [], map[])
  }

  function Ask(name: string, key: string, at: nat): Use {
    Evaluate(Request(name, Some(key), None, User), at, Reading(at, at))
  }

  lemma TwoKeyLimitsCount(a: string, b: string, s: State, use: Use)
    requires a != "" && b != "" && use.Evaluate? && use.request.name in {a, b} && use.request.key.Some?
    ensures CountsKey(TwoKeyLimits(a, b), s, use.request, use.at)
  {
    assert !TwoKeyLimits(a, b).IsContractRequired(use.request.name);
  }

  /**
   * Two actions filed under one string: the second is let through on the limit of the first, though its own
   * is zero.
   */
  lemma SharedFilesBreakTheLimit(a: string, k: string, b: string, l: string)
    requires a != "" && b != "" && a != b && EffectiveKey(a, k) == EffectiveKey(b, l)
    ensures var uses := [Ask(a, k, 0)] + [Ask(b, l, 1)];
            InOrder(uses) && Passed(TwoKeyLimits(a, b), uses, b, Some(l), 1, 2) == 1
  {
    var policy, first, second := TwoKeyLimits(a, b), Ask(a, k, 0), Ask(b, l, 1);
    var uses := [first] + [second];
    assert uses[..1] == [first] && [first][..0] == [];
    var none, s := EngineAfter(policy, []), EngineAfter(policy, [first]);
    TwoKeyLimitsCount(a, b, none, first);
    UseOnTrackers(policy, none, first);
    assert s == UseEngine(policy, none, first);
    assert s.byKey == map[EffectiveKey(b, l) := Bucket(1, 0, Limit(1, 1))];
    TwoKeyLimitsCount(a, b, s, second);
    AllowedMeansAllPassed(policy, s, second.request, 1, second.read);
    assert LastPassed(policy, uses);
    assert Passed(policy, [], b, Some(l), 1, 2) == 0;
  }

  /** The limit an action has per key is kept for this key within an interval as long as the window. */
  ghost predicate KeyLimitKept(policy: Policy, uses: seq<Use>, name: string, key: string, t: int) {
    InOrder(uses) && name in policy.keyLimits && policy.keyLimits[name].window > 0 ==>
      var limit := policy.keyLimits[name];
      Passed(policy, uses, name, Some(key), t, t + limit.window) <= 2 * limit.maxCount
  }

  /** Whatever the policy and the uses. */
  ghost predicate KeyLimitAlwaysKept(name: string, key: string) {
    forall policy: Policy, uses: seq<Use>, t: int :: KeyLimitKept(policy, uses, name, key, t)
  }

  lemma {:induction false} NamelessNeverPass(policy: Policy, uses: seq<Use>, key: Option<string>, from: int, to: int)
    ensures Passed(policy, uses, "", key, from, to) == 0
  {
    if uses != [] {
      NamelessNeverPass(policy, uses[..|uses| - 1], key, from, to);
    }
  }

  /** It is exactly when neither the key, nor the action name after its first character, has a colon. */
  lemma KeyLimitAlwaysKeptIff(name: string, key: string)
    ensures KeyLimitAlwaysKept(name, key) <==> Alone(name, key)
  {
    if Alone(name, key) {
      forall policy: Policy, uses: seq<Use>, t: int ensures KeyLimitKept(policy, uses, name, key, t) {
        if InOrder(uses) && name in policy.keyLimits && policy.keyLimits[name].window > 0 {
          KeptWhenAlone(policy, uses, name, key, t);
        }
      }
    } else {
      var a, k := OtherPair(name, key);
      SharedFilesBreakTheLimit(a, k, name, key);
      var uses := [Ask(a, k, 0)] + [Ask(name, key, 1)];
      assert !KeyLimitKept(TwoKeyLimits(a, name), uses, name, key, 1);
    }
  }

  lemma KeptWhenAlone(policy: Policy, uses: seq<Use>, name: string, key: string, t: int)
    requires Alone(name, key) && InOrder(uses) && name in policy.keyLimits && policy.keyLimits[name].window > 0
    ensures KeyLimitKept(policy, uses, name, key, t)
  {
    if name == "" {
      NamelessNeverPass(policy, uses, Some(key), t, t + policy.keyLimits[name].window);
    } else {
      AloneIff(name, key);
      KeyLimitIsKept(policy, uses, name, key, t);
    }
  }
}
