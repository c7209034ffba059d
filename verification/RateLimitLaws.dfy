/**
 * Laws of rate limiting: the bound on a window is attained, and cleanups are invisible
 * (crates/agentverify-policy/src/policy.rs).
 */
module RateLimitLaws {
  import opened RateLimits

  /** A number of calls at one instant. */
  function Burst<K>(key: K, limit: Limit, at: nat, n: nat): seq<Op<K>> {
    if n == 0 then [] else Burst(key, limit, at, n - 1) + [Call(key, limit, at)]
  }

  lemma OneMoreCall<K>(ops: seq<Op<K>>, op: Op<K>, from: int, to: int)
    requires op.Call?
    ensures var d := CheckAndIncrement(After(ops), op.key, op.limit, op.at);
            && After(ops + [op]) == d.buckets
            && AllowedBetween(ops + [op], op.key, from, to) ==
               AllowedBetween(ops, op.key, from, to) + if d.allowed && from <= op.at <= to then 1 else 0
  {
    assert (ops + [op])[..|ops|] == ops;
  }

  /** A number of calls have been counted since a window began. */
  ghost predicate Counted<K>(buckets: map<K, Bucket>, key: K, limit: Limit, at: nat, n: nat) {
    if n == 0 then key in buckets ==> buckets[key].limit == limit && Expired(buckets[key], at)
    else key in buckets && buckets[key] == Bucket(n, at, limit)
  }

  lemma CountOneMore<K>(buckets: map<K, Bucket>, key: K, limit: Limit, at: nat, n: nat)
    requires limit.window > 0 && n < limit.maxCount && Counted(buckets, key, limit, at, n)
    ensures var d := CheckAndIncrement(buckets, key, limit, at);
            d.allowed && Counted(d.buckets, key, limit, at, n + 1)
  {
  }

  lemma {:induction false} BurstIsAllowed<K>(ops: seq<Op<K>>, key: K, limit: Limit, at: nat, n: nat, from: int, to: int)
    requires limit.window > 0 && n <= limit.maxCount && Counted(After(ops), key, limit, at, 0)
    ensures var all := ops + Burst(key, limit, at, n);
            && Counted(After(all), key, limit, at, n)
            && AllowedBetween(all, key, from, to) ==
               AllowedBetween(ops, key, from, to) + if from <= at <= to then n else 0
  {
    if n == 0 {
      assert ops + Burst(key, limit, at, 0) == ops;
    } else {
      BurstIsAllowed(ops, key, limit, at, n - 1, from, to);
      var shorter, call := ops + Burst(key, limit, at, n - 1), Call(key, limit, at);
      assert ops + Burst(key, limit, at, n) == shorter + [call];
      CountOneMore(After(shorter), key, limit, at, n - 1);
      OneMoreCall(shorter, call, from, to);
    }
  }

  lemma {:induction false} BurstShape<K>(key: K, limit: Limit, at: nat, n: nat)
    ensures |Burst(key, limit, at, n)| == n
    ensures forall i :: 0 <= i < n ==> Burst(key, limit, at, n)[i] == Call(key, limit, at)
  {
    if n > 0 {
      BurstShape(key, limit, at, n - 1);
    }
  }

  lemma TwoBurstsAreAllowed<K>(key: K, limit: Limit)
    requires limit.window > 0 && limit.maxCount > 0
    ensures var ops := Burst(key, limit, 0, limit.maxCount) + Burst(key, limit, limit.window, limit.maxCount);
            AllowedBetween(ops, key, 0, limit.window) == 2 * limit.maxCount
  {
    var first := Burst(key, limit, 0, limit.maxCount);
    BurstIsAllowed([], key, limit, 0, limit.maxCount, 0, limit.window);
    assert [] + first == first;
    BurstIsAllowed(first, key, limit, limit.window, limit.maxCount, 0, limit.window);
  }

  /** Twice the maximum is attained: a full burst at the start of a window and one when it ends. */
  lemma TwicePerWindowIsAttained<K>(key: K, limit: Limit) returns (ops: seq<Op<K>>)
    requires limit.window > 0 && limit.maxCount > 0
    ensures Chronological(ops) && FixedLimit(ops, key, limit)
    ensures AllowedBetween(ops, key, 0, limit.window) == 2 * limit.maxCount
  {
    var n := limit.maxCount;
    ops := Burst(key, limit, 0, n) + Burst(key, limit, limit.window, n);
    TwoBurstsAreAllowed(key, limit);
    BurstShape(key, limit, 0, n);
    BurstShape(key, limit, limit.window, n);
    assert forall i :: 0 <= i < |ops| ==> ops[i] == Call(key, limit, if i < n then 0 else limit.window);
  }

  lemma ZeroWindowCall<K>(buckets: map<K, Bucket>, key: K, limit: Limit)
    requires limit.window == 0 && limit.maxCount > 0 && (key in buckets ==> buckets[key].limit == limit)
    ensures var d := CheckAndIncrement(buckets, key, limit, 0);
            d.allowed && key in d.buckets && d.buckets[key].limit == limit
  {
  }

  lemma {:induction false} ZeroWindowBurst<K>(key: K, limit: Limit, n: nat)
    requires limit.window == 0 && limit.maxCount > 0
    ensures var ops := Burst(key, limit, 0, n);
            AllowedBetween(ops, key, 0, 0) == n && (key in After(ops) ==> After(ops)[key].limit == limit)
  {
    if n > 0 {
      hide After, AllowedBetween, CheckAndIncrement;
      var shorter := Burst(key, limit, 0, n - 1);
      ZeroWindowBurst(key, limit, n - 1);
      OneMoreCall(shorter, Call(key, limit, 0), 0, 0);
      ZeroWindowCall(After(shorter), key, limit);
    }
  }

  /** A window of no length bounds nothing: any number of calls is allowed at one instant. */
  lemma ZeroWindowBoundsNothing<K>(key: K, limit: Limit, n: nat) returns (ops: seq<Op<K>>)
    requires limit.window == 0 && limit.maxCount > 0
    ensures Chronological(ops) && FixedLimit(ops, key, limit)
    ensures AllowedBetween(ops, key, 0, 0) == n
  {
    ops := Burst(key, limit, 0, n);
    ZeroWindowBurst(key, limit, n);
    BurstShape(key, limit, 0, n);
  }

  /** From a time on, for as long as the window, at most twice the maximum is allowed. */
  ghost predicate TwiceAt<K>(ops: seq<Op<K>>, key: K, limit: Limit, t: int) {
    AllowedBetween(ops, key, t, t + limit.window) <= 2 * limit.maxCount
  }

  /** Every run in order of time under one limit keeps to that at all times. */
  ghost predicate WindowBound<K(!new)>(key: K, limit: Limit) {
    forall ops: seq<Op<K>>, t: int ::
      Chronological(ops) && FixedLimit(ops, key, limit) ==> TwiceAt(ops, key, limit, t)
  }

  /** Exactly the limits with a window, or with nothing to allow, bound the calls. */
  lemma WindowBoundIff<K(!new)>(key: K, limit: Limit)
    ensures WindowBound(key, limit) <==> limit.window > 0 || limit.maxCount == 0
  {
    if limit.window > 0 || limit.maxCount == 0 {
      forall ops: seq<Op<K>>, t: int | Chronological(ops) && FixedLimit(ops, key, limit)
        ensures TwiceAt(ops, key, limit, t) {
        AtMostTwicePerWindow(ops, key, limit, t);
      }
    } else {
      var ops := ZeroWindowBoundsNothing(key, limit, 2 * limit.maxCount + 1);
      assert !TwiceAt(ops, key, limit, 0);
    }
  }

  /** The answers to the calls of a run, in order. */
  function Answers<K(==)>(ops: seq<Op<K>>): seq<bool> {
    if ops == [] then []
    else Answers(ops[..|ops| - 1]) + if ops[|ops| - 1].Call? then [LastAllowed(ops)] else []
  }

  /** The same run without its cleanups. */
  function Unswept<K>(ops: seq<Op<K>>): seq<Op<K>> {
    if ops == [] then []
    else Unswept(ops[..|ops| - 1]) + if ops[|ops| - 1].Call? then [ops[|ops| - 1]] else []
  }

  /** Every call on a key names the same limit. */
  ghost predicate LimitsFixed<K(!new)>(ops: seq<Op<K>>, limits: K -> Limit) {
    forall i :: 0 <= i < |ops| && ops[i].Call? ==> ops[i].limit == limits(ops[i].key)
  }

  /** The swept buckets are the unswept ones, less some that have expired. */
  ghost predicate SweptOf<K(!new)>(swept: map<K, Bucket>, all: map<K, Bucket>, limits: K -> Limit, now: nat) {
    && (forall k :: k in swept ==> k in all && swept[k] == all[k])
    && (forall k :: k in all ==> all[k].limit == limits(k) && (k !in swept ==> Expired(all[k], now)))
  }

  lemma CallKeepsSwept<K(!new)>(
    swept: map<K, Bucket>, all: map<K, Bucket>, limits: K -> Limit, before: nat, key: K, now: nat)
    requires SweptOf(swept, all, limits, before) && before <= now
    ensures var a, b := CheckAndIncrement(swept, key, limits(key), now), CheckAndIncrement(all, key, limits(key), now);
            a.allowed == b.allowed && SweptOf(a.buckets, b.buckets, limits, now)
  {
  }

  lemma SweepKeepsSwept<K(!new)>(swept: map<K, Bucket>, all: map<K, Bucket>, limits: K -> Limit, before: nat, now: nat)
    requires SweptOf(swept, all, limits, before) && before <= now
    ensures SweptOf(Cleanup(swept, now), all, limits, now)
  {
    forall k | k in all && k !in Cleanup(swept, now) ensures Expired(all[k], now) {
      if k in swept {
        assert swept[k] == all[k];
      }
    }
  }

  lemma AnswersOfCall<K(!new)>(ops: seq<Op<K>>, op: Op<K>)
    requires op.Call?
    ensures var d := CheckAndIncrement(After(ops), op.key, op.limit, op.at);
            Answers(ops + [op]) == Answers(ops) + [d.allowed] && After(ops + [op]) == d.buckets
    ensures Unswept(ops + [op]) == Unswept(ops) + [op]
  {
    assert (ops + [op])[..|ops|] == ops;
  }

  lemma AnswersOfSweep<K(!new)>(ops: seq<Op<K>>, op: Op<K>)
    requires op.Sweep?
    ensures Answers(ops + [op]) == Answers(ops) && After(ops + [op]) == Cleanup(After(ops), op.at)
    ensures Unswept(ops + [op]) == Unswept(ops)
  {
    assert (ops + [op])[..|ops|] == ops;
  }

  /** Cleanups change neither an answer nor a status, as long as each key keeps its limit. */
  lemma {:induction false} CleanupIsInvisible<K(!new)>(ops: seq<Op<K>>, limits: K -> Limit)
    requires Chronological(ops) && LimitsFixed(ops, limits)
    ensures Answers(ops) == Answers(Unswept(ops))
    ensures SweptOf(After(ops), After(Unswept(ops)), limits, LastTime(ops))
  {
    if ops != [] {
      var n := |ops| - 1;
      var pre, op := ops[..n], ops[n];
      CleanupIsInvisible(pre, limits);
      assert LastTime(pre) <= op.at && ops == pre + [op];
      if op.Call? {
        AnswersOfCall(pre, op);
        AnswersOfCall(Unswept(pre), op);
        CallKeepsSwept(After(pre), After(Unswept(pre)), limits, LastTime(pre), op.key, op.at);
      } else {
        AnswersOfSweep(pre, op);
        SweepKeepsSwept(After(pre), After(Unswept(pre)), limits, LastTime(pre), op.at);
      }
    }
  }

  lemma StatusIsUnchanged<K(!new)>(ops: seq<Op<K>>, limits: K -> Limit, key: K, t: Reading)
    requires Chronological(ops) && LimitsFixed(ops, limits) && LastTime(ops) <= t.first <= t.second
    ensures StatusOf(After(ops), key, limits(key), t) == StatusOf(After(Unswept(ops)), key, limits(key), t)
  {
    CleanupIsInvisible(ops, limits);
  }
}
