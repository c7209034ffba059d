/**
 * The call that opens a bucket is allowed, and falls out of a half-open interval as long as the window
 * that also reaches into the next bucket: one less than twice the maximum fits
 * (crates/agentverify-policy/src/policy.rs).
 */
module RateLimitOpenings {
  import opened Common
  import opened RateLimits
  import opened RateLimitLaws

  /** Of what a bucket has counted, the opening call was not after its start. */
  ghost predicate Opened<K>(ops: seq<Op<K>>, key: K, limit: Limit, b: Bucket) {
    && AllowedSince(ops, key, b.start + 1) <= Max(0, b.count - 1)
    && AllowedSince(ops, key, b.start - limit.window + 1) <= b.count + Max(0, limit.maxCount - 1)
  }

  ghost predicate StoredOpened<K>(ops: seq<Op<K>>, key: K, limit: Limit) {
    key in After(ops) ==>
      Opened(ops, key, limit, After(ops)[key]) && (After(ops)[key].count >= 1 || limit.maxCount == 0)
  }

  lemma CurrentOpened<K>(ops: seq<Op<K>>, key: K, limit: Limit, at: nat)
    requires limit.window > 0 && LastTime(ops) <= at && Tracks(ops, key, limit) && StoredOpened(ops, key, limit)
    ensures var b := ResetIfExpired(GetOrCreate(After(ops), key, limit, at), at);
            Opened(ops, key, limit, b) && (b.count == 0 ==> limit.maxCount == 0 || b.start == at)
  {
    hide After, AllowedSince;
    if key in After(ops) {
      var b := After(ops)[key];
      if Expired(b, at) {
        SinceShrinks(ops, key, b.start + limit.window, at + 1);
        SinceShrinks(ops, key, b.start + 1, at - limit.window + 1);
      }
    } else {
      SinceShrinks(ops, key, LastTime(ops) - limit.window, at + 1);
      SinceShrinks(ops, key, LastTime(ops) - limit.window, at - limit.window + 1);
    }
  }

  lemma CallOpens<K>(ops: seq<Op<K>>, op: Op<K>)
    requires op.Call? && op.limit.window > 0 && LastTime(ops) <= op.at
    requires Tracks(ops, op.key, op.limit) && StoredOpened(ops, op.key, op.limit)
    ensures StoredOpened(ops + [op], op.key, op.limit)
  {
    CurrentBucketTells(ops, op.key, op.limit, op.at);
    CurrentOpened(ops, op.key, op.limit, op.at);
    var b := ResetIfExpired(GetOrCreate(After(ops), op.key, op.limit, op.at), op.at);
    SinceOfCall(ops, op, b.start + 1);
    SinceOfCall(ops, op, b.start - op.limit.window + 1);
    assert (ops + [op])[..|ops|] == ops;
  }

  lemma OtherOpens<K>(ops: seq<Op<K>>, op: Op<K>, key: K, limit: Limit)
    requires (op.Sweep? || op.key != key) && StoredOpened(ops, key, limit)
    ensures StoredOpened(ops + [op], key, limit)
  {
    BucketAfterOther(ops, op, key);
    if key in After(ops + [op]) {
      var b := After(ops)[key];
      SinceOfOther(ops, op, key, b.start + 1);
      SinceOfOther(ops, op, key, b.start - limit.window + 1);
    }
  }

  lemma {:induction false} BucketsOpen<K>(ops: seq<Op<K>>, key: K, limit: Limit)
    requires Chronological(ops) && FixedLimit(ops, key, limit) && limit.window > 0
    ensures StoredOpened(ops, key, limit)
  {
    if ops != [] {
      hide StoredOpened, Tracks;
      var n := |ops| - 1;
      BucketsOpen(ops[..n], key, limit);
      TrackerTracks(ops[..n], key, limit);
      assert LastTime(ops[..n]) <= LastTime(ops) && ops[..n] + [ops[n]] == ops;
      if ops[n].Call? && ops[n].key == key {
        CallOpens(ops[..n], ops[n]);
      } else {
        OtherOpens(ops[..n], ops[n], key, limit);
      }
    } else {
      assert key !in After(ops);
    }
  }

  /** No time is within an interval that ends before it begins. */
  lemma {:induction false} NothingInBetween<K>(ops: seq<Op<K>>, key: K, from: int, to: int)
    requires to < from
    ensures AllowedBetween(ops, key, from, to) == 0
  {
    if ops != [] {
      NothingInBetween(ops[..|ops| - 1], key, from, to);
    }
  }

  /** Within any half-open interval as long as the window one less than twice the maximum is allowed. */
  lemma {:induction false} LessThanTwicePerHalfOpenWindow<K>(ops: seq<Op<K>>, key: K, limit: Limit, t: int)
    requires Chronological(ops) && FixedLimit(ops, key, limit)
    ensures AllowedBetween(ops, key, t, t + limit.window - 1) <= Max(0, 2 * limit.maxCount - 1)
  {
    if limit.window == 0 {
      NothingInBetween(ops, key, t, t - 1);
    } else if ops != [] {
      var n := |ops| - 1;
      LessThanTwicePerHalfOpenWindow(ops[..n], key, limit, t);
      if LastAllowed(ops) && ops[n].key == key && t <= ops[n].at <= t + limit.window - 1 {
        TrackerTracks(ops, key, limit);
        BucketsOpen(ops, key, limit);
        var b := After(ops)[key];
        BetweenIsSince(ops, key, t, t + limit.window - 1);
        SinceShrinks(ops, key, b.start - limit.window + 1, t);
      }
    }
  }

  lemma CountInWindow<K>(buckets: map<K, Bucket>, key: K, limit: Limit, start: nat, c: nat, at: nat)
    requires key in buckets && buckets[key] == Bucket(c, start, limit) && start <= at < start + limit.window
             && c < limit.maxCount
    ensures var d := CheckAndIncrement(buckets, key, limit, at);
            d.allowed && key in d.buckets && d.buckets[key] == Bucket(c + 1, start, limit)
  {
  }

  /** More calls in an open window. */
  lemma {:induction false} MoreInWindow<K>(
    ops: seq<Op<K>>, key: K, limit: Limit, start: nat, c: nat, at: nat, n: nat, from: int, to: int)
    requires key in After(ops) && After(ops)[key] == Bucket(c, start, limit)
    requires start <= at < start + limit.window && c + n <= limit.maxCount && from <= at <= to
    ensures var all := ops + Burst(key, limit, at, n);
            && key in After(all) && After(all)[key] == Bucket(c + n, start, limit)
            && AllowedBetween(all, key, from, to) == AllowedBetween(ops, key, from, to) + n
  {
    if n == 0 {
      assert ops + Burst(key, limit, at, 0) == ops;
    } else {
      MoreInWindow(ops, key, limit, start, c, at, n - 1, from, to);
      var shorter, call := ops + Burst(key, limit, at, n - 1), Call(key, limit, at);
      assert ops + Burst(key, limit, at, n) == shorter + [call];
      CountInWindow(After(shorter), key, limit, start, c + n - 1, at);
      OneMoreCall(shorter, call, from, to);
    }
  }

  /** A call opens a window, the rest come at its end, and a full burst as the next one begins. */
  function Straddling<K>(key: K, limit: Limit): seq<Op<K>>
    requires limit.window >= 2 && limit.maxCount > 0
  {
    Burst(key, limit, 0, 1) + Burst(key, limit, limit.window - 1, limit.maxCount - 1)
    + Burst(key, limit, limit.window, limit.maxCount)
  }

  lemma StraddlingIsAllowed<K>(key: K, limit: Limit)
    requires limit.window >= 2 && limit.maxCount > 0
    ensures AllowedBetween(Straddling(key, limit), key, 1, limit.window) == 2 * limit.maxCount - 1
  {
    hide After, AllowedBetween;
    var none: seq<Op<K>> := [];
    var w, m := limit.window, limit.maxCount;
    var one := Burst(key, limit, 0, 1);
    Nothing(key);
    BurstIsAllowed(none, key, limit, 0, 1, 1, w);
    assert none + one == one;
    MoreInWindow(one, key, limit, 0, 1, w - 1, m - 1, 1, w);
    var two := one + Burst(key, limit, w - 1, m - 1);
    BurstIsAllowed(two, key, limit, w, m, 1, w);
  }

  lemma Nothing<K>(key: K)
    ensures After<K>([]) == map[] && forall from: int, to: int :: AllowedBetween([], key, from, to) == 0
  {
  }

  /** That many are attained, for every window longer than one tick of the clock. */
  lemma HalfOpenBoundIsAttained<K>(key: K, limit: Limit) returns (ops: seq<Op<K>>)
    requires limit.window >= 2 && limit.maxCount > 0
    ensures Chronological(ops) && FixedLimit(ops, key, limit)
    ensures AllowedBetween(ops, key, 1, 1 + limit.window - 1) == 2 * limit.maxCount - 1
  {
    ops := Straddling(key, limit);
    StraddlingIsAllowed(key, limit);
    var w, m := limit.window, limit.maxCount;
    BurstShape(key, limit, 0, 1);
    BurstShape(key, limit, w - 1, m - 1);
    BurstShape(key, limit, w, m);
    assert forall i :: 0 <= i < |ops| ==> ops[i] == Call(key, limit, if i == 0 then 0 else if i < m then w - 1 else w);
  }

  /** At one instant at most the maximum is allowed, if the window is one tick long. */
  lemma {:induction false} MaximumPerTick<K>(ops: seq<Op<K>>, key: K, limit: Limit, t: int)
    requires Chronological(ops) && FixedLimit(ops, key, limit) && limit.window == 1
    ensures AllowedBetween(ops, key, t, t) <= limit.maxCount
  {
    if ops != [] {
      var n := |ops| - 1;
      MaximumPerTick(ops[..n], key, limit, t);
      if LastAllowed(ops) && ops[n].key == key && ops[n].at == t {
        TrackerTracks(ops[..n], key, limit);
        TrackerTracks(ops, key, limit);
        assert ops[..n] + [ops[n]] == ops;
        CurrentBucketTells(ops[..n], key, limit, ops[n].at);
        BetweenIsSince(ops, key, t, t);
      }
    }
  }

  /** From a time on, for as long as the window and not at its end, at most the maximum is allowed. */
  ghost predicate MaximumAt<K>(ops: seq<Op<K>>, key: K, limit: Limit, t: int) {
    AllowedBetween(ops, key, t, t + limit.window - 1) <= limit.maxCount
  }

  /** Every run in order of time under one limit keeps to the maximum at all times. */
  ghost predicate MaximumIsKept<K(!new)>(key: K, limit: Limit) {
    forall ops: seq<Op<K>>, t: int ::
      Chronological(ops) && FixedLimit(ops, key, limit) ==> MaximumAt(ops, key, limit, t)
  }

  lemma MaximumNow<K>(ops: seq<Op<K>>, key: K, limit: Limit, t: int)
    requires Chronological(ops) && FixedLimit(ops, key, limit) && (limit.window <= 1 || limit.maxCount <= 1)
    ensures MaximumAt(ops, key, limit, t)
  {
    if limit.maxCount <= 1 {
      LessThanTwicePerHalfOpenWindow(ops, key, limit, t);
    } else if limit.window == 0 {
      NothingInBetween(ops, key, t, t - 1);
    } else {
      MaximumPerTick(ops, key, limit, t);
    }
  }

  /** The maximum is one of every window exactly when the window is at most a tick or the maximum at most one. */
  lemma MaximumIsKeptIff<K(!new)>(key: K, limit: Limit)
    ensures MaximumIsKept(key, limit) <==> limit.window <= 1 || limit.maxCount <= 1
  {
    hide MaximumAt;
    if limit.window <= 1 || limit.maxCount <= 1 {
      forall ops: seq<Op<K>>, t: int | Chronological(ops) && FixedLimit(ops, key, limit)
        ensures MaximumAt(ops, key, limit, t)
      {
        MaximumNow(ops, key, limit, t);
      }
    } else {
      var ops := MaximumExceeded(key, limit);
    }
  }

  lemma MaximumExceeded<K>(key: K, limit: Limit) returns (ops: seq<Op<K>>)
    requires limit.window >= 2 && limit.maxCount >= 2
    ensures Chronological(ops) && FixedLimit(ops, key, limit) && !MaximumAt(ops, key, limit, 1)
  {
    ops := HalfOpenBoundIsAttained(key, limit);
  }
}
