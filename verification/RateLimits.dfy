/** Fixed-window rate limiting (crates/agentverify-policy/src/policy.rs). Time is a number of nanoseconds. */
module RateLimits {
  import opened Common

  datatype Limit = Limit(maxCount: nat, window: nat)

  datatype Bucket = Bucket(count: nat, start: nat, limit: Limit)

  datatype Decision<K> = Decision(buckets: map<K, Bucket>, allowed: bool)

  /** `Instant::elapsed` saturates at zero. */
  function Elapsed(b: Bucket, now: nat): nat {
    Max(0, now - b.start)
  }

  predicate Expired(b: Bucket, now: nat) {
    Elapsed(b, now) >= b.limit.window
  }

  function ResetIfExpired(b: Bucket, now: nat): Bucket {
    if Expired(b, now) then b.(count := 0, start := now) else b
  }

  function GetOrCreate<K>(buckets: map<K, Bucket>, key: K, limit: Limit, now: nat): Bucket {
    if key in buckets then buckets[key] else Bucket(0, now, limit)
  }

  /** Count the call against its bucket if there is room. An existing bucket keeps its own limit. */
  function CheckAndIncrement<K>(buckets: map<K, Bucket>, key: K, limit: Limit, now: nat): Decision<K> {
    var b := ResetIfExpired(GetOrCreate(buckets, key, limit, now), now);
    if b.count < b.limit.maxCount then Decision(buckets[key := b.(count := b.count + 1)], true)
    else Decision(buckets[key := b], false)
  }

  /** Drop the buckets that began two windows ago or earlier. */
  function Cleanup<K>(buckets: map<K, Bucket>, now: nat): map<K, Bucket> {
    map k | k in buckets && Elapsed(buckets[k], now) < buckets[k].limit.window * 2 :: buckets[k]
  }

  datatype Status = Status(current: nat, limit: nat, remaining: nat, windowSecsRemaining: nat)

  const NANOS_PER_SEC: nat := 1_000_000_000

  /** The clock is read twice for a status: to see whether the window is over, and to see what is left of it. */
  datatype Reading = Reading(first: nat, second: nat)

  /** The status of a key; none if the window ends between the two readings, when the source panics. */
  function StatusOf<K>(buckets: map<K, Bucket>, key: K, limit: Limit, t: Reading): Option<Status> {
    if key in buckets && Elapsed(buckets[key], t.first) < limit.window then
      var b := buckets[key];
      if Elapsed(b, t.second) > limit.window then None
      else
        Some(Status(b.count, limit.maxCount, Max(0, limit.maxCount - b.count),
                    (limit.window - Elapsed(b, t.second)) / NANOS_PER_SEC))
    else Some(Status(0, limit.maxCount, limit.maxCount, 0))
  }

  /** The tracker by action name. */
  class RateLimitTracker {
    var buckets: map<string, Bucket>

    constructor ()
      ensures buckets == map[]
    {
      buckets := map[];
    }

    method CheckRateLimit(name: string, limit: Limit, now: nat) returns (allowed: bool)
      modifies this
      ensures Decision(buckets, allowed) == CheckAndIncrement(old(buckets), name, limit, now)
    {
      if name !in buckets {
        buckets := buckets[name := Bucket(0, now, limit)];
      }
      var b := buckets[name];
      if Expired(b, now) {
        b := b.(count := 0, start := now);
      }
      allowed := b.count < b.limit.maxCount;
      if allowed {
        b := b.(count := b.count + 1);
      }
      buckets := buckets[name := b];
    }

    method CleanupExpired(now: nat)
      modifies this
      ensures buckets == Cleanup(old(buckets), now)
    {
      buckets := map k | k in buckets && Elapsed(buckets[k], now) < buckets[k].limit.window * 2 :: buckets[k];
    }
  }

  /** The key under which the per-key tracker files an action and an idempotency key. */
  function EffectiveKey(action: string, key: string): string {
    action + ":" + key
  }

  /** The tracker by idempotency key. */
  class IdempotencyRateLimitTracker {
    var buckets: map<string, Bucket>

    constructor ()
      ensures buckets == map[]
    {
      buckets := map[];
    }

    method CheckRateLimit(key: string, action: string, limit: Limit, now: nat) returns (allowed: bool)
      modifies this
      ensures Decision(buckets, allowed) == CheckAndIncrement(old(buckets), EffectiveKey(action, key), limit, now)
    {
      var effective := EffectiveKey(action, key);
      if effective !in buckets {
        buckets := buckets[effective := Bucket(0, now, limit)];
      }
      var b := buckets[effective];
      if Expired(b, now) {
        b := b.(count := 0, start := now);
      }
      allowed := b.count < b.limit.maxCount;
      if allowed {
        b := b.(count := b.count + 1);
      }
      buckets := buckets[effective := b];
    }

    method CleanupExpired(now: nat)
      modifies this
      ensures buckets == Cleanup(old(buckets), now)
    {
      buckets := map k | k in buckets && Elapsed(buckets[k], now) < buckets[k].limit.window * 2 :: buckets[k];
    }
  }

  /** One use of a tracker. */
  datatype Op<K> = Call(key: K, limit: Limit, at: nat) | Sweep(at: nat)

  function Apply<K>(buckets: map<K, Bucket>, op: Op<K>): map<K, Bucket> {
    match op
    case Call(key, limit, at) => CheckAndIncrement(buckets, key, limit, at).buckets
    case Sweep(at) => Cleanup(buckets, at)
  }

  /** The buckets after a sequence of uses. */
  function After<K>(ops: seq<Op<K>>): map<K, Bucket> {
    if ops == [] then map[]
    else Apply(After(ops[..|ops| - 1]), ops[|ops| - 1])
  }

  /** Was the last use a call, and was it allowed? */
  predicate LastAllowed<K(==)>(ops: seq<Op<K>>)
    requires ops != []
  {
    var n := |ops| - 1;
    ops[n].Call? && CheckAndIncrement(After(ops[..n]), ops[n].key, ops[n].limit, ops[n].at).allowed
  }

  ghost predicate Chronological<K>(ops: seq<Op<K>>) {
    forall i, j :: 0 <= i <= j < |ops| ==> ops[i].at <= ops[j].at
  }

  ghost predicate FixedLimit<K>(ops: seq<Op<K>>, key: K, limit: Limit) {
    forall i :: 0 <= i < |ops| && ops[i].Call? && ops[i].key == key ==> ops[i].limit == limit
  }

  function LastTime<K>(ops: seq<Op<K>>): nat {
    if ops == [] then 0 else ops[|ops| - 1].at
  }

  /** Allowed calls on a key from one time to another, both included. */
  function AllowedBetween<K(==)>(ops: seq<Op<K>>, key: K, from: int, to: int): nat {
    if ops == [] then 0
    else
      var n := |ops| - 1;
      AllowedBetween(ops[..n], key, from, to) +
      if LastAllowed(ops) && ops[n].key == key && from <= ops[n].at <= to then 1 else 0
  }

  /** Allowed calls on a key since a time. */
  function AllowedSince<K(==)>(ops: seq<Op<K>>, key: K, from: int): nat {
    if ops == [] then 0
    else
      var n := |ops| - 1;
      AllowedSince(ops[..n], key, from) + if LastAllowed(ops) && ops[n].key == key && from <= ops[n].at then 1 else 0
  }

  lemma {:induction false} SinceShrinks<K>(ops: seq<Op<K>>, key: K, a: int, b: int)
    requires a <= b
    ensures AllowedSince(ops, key, b) <= AllowedSince(ops, key, a)
  {
    if ops != [] {
      SinceShrinks(ops[..|ops| - 1], key, a, b);
    }
  }

  lemma {:induction false} BetweenIsSince<K>(ops: seq<Op<K>>, key: K, from: int, to: int)
    ensures AllowedBetween(ops, key, from, to) <= AllowedSince(ops, key, from)
  {
    if ops != [] {
      BetweenIsSince(ops[..|ops| - 1], key, from, to);
    }
  }

  /**
   * What a bucket says about the past: it has counted exactly the allowed calls of its window, the
   * window before held at most the maximum, and nothing was allowed later.
   */
  ghost predicate BucketTells<K>(ops: seq<Op<K>>, key: K, limit: Limit, b: Bucket, now: nat) {
    && b.limit == limit && b.start <= now && b.count <= limit.maxCount
    && AllowedSince(ops, key, b.start) == b.count
    && AllowedSince(ops, key, b.start + limit.window) == 0
    && AllowedSince(ops, key, b.start - limit.window) <= b.count + limit.maxCount
  }

  ghost predicate Tracks<K>(ops: seq<Op<K>>, key: K, limit: Limit) {
    if key in After(ops) then BucketTells(ops, key, limit, After(ops)[key], LastTime(ops))
    else AllowedSince(ops, key, LastTime(ops) - limit.window) == 0
  }

  /** The bucket a call is counted against, before it is counted. */
  lemma CurrentBucketTells<K>(ops: seq<Op<K>>, key: K, limit: Limit, at: nat)
    requires limit.window > 0 && LastTime(ops) <= at && Tracks(ops, key, limit)
    ensures var b := ResetIfExpired(GetOrCreate(After(ops), key, limit, at), at);
            BucketTells(ops, key, limit, b, at) && at < b.start + limit.window
  {
    if key in After(ops) {
      var b := After(ops)[key];
      if Expired(b, at) {
        SinceShrinks(ops, key, b.start, at - limit.window);
        SinceShrinks(ops, key, b.start + limit.window, at);
        SinceShrinks(ops, key, b.start + limit.window, at + limit.window);
      }
    } else {
      var since := LastTime(ops) - limit.window;
      SinceShrinks(ops, key, since, at - limit.window);
      SinceShrinks(ops, key, since, at);
      SinceShrinks(ops, key, since, at + limit.window);
    }
  }

  lemma SinceOfCall<K>(ops: seq<Op<K>>, op: Op<K>, from: int)
    requires op.Call?
    ensures AllowedSince(ops + [op], op.key, from) ==
            AllowedSince(ops, op.key, from) +
            if CheckAndIncrement(After(ops), op.key, op.limit, op.at).allowed && from <= op.at then 1 else 0
  {
    assert (ops + [op])[..|ops|] == ops;
  }

  lemma CallTracks<K>(ops: seq<Op<K>>, op: Op<K>)
    requires op.Call? && op.limit.window > 0 && LastTime(ops) <= op.at && Tracks(ops, op.key, op.limit)
    ensures Tracks(ops + [op], op.key, op.limit)
  {
    CurrentBucketTells(ops, op.key, op.limit, op.at);
    var b := ResetIfExpired(GetOrCreate(After(ops), op.key, op.limit, op.at), op.at);
    SinceOfCall(ops, op, b.start);
    SinceOfCall(ops, op, b.start + op.limit.window);
    SinceOfCall(ops, op, b.start - op.limit.window);
    assert (ops + [op])[..|ops|] == ops;
  }

  lemma SinceOfOther<K>(ops: seq<Op<K>>, op: Op<K>, key: K, from: int)
    requires op.Sweep? || op.key != key
    ensures AllowedSince(ops + [op], key, from) == AllowedSince(ops, key, from)
  {
    assert (ops + [op])[..|ops|] == ops;
  }

  /** What another use does to the bucket of a key: nothing, unless it sweeps it two windows after its start. */
  lemma BucketAfterOther<K>(ops: seq<Op<K>>, op: Op<K>, key: K)
    requires op.Sweep? || op.key != key
    ensures key in After(ops + [op]) ==> key in After(ops) && After(ops + [op])[key] == After(ops)[key]
    ensures key in After(ops) && key !in After(ops + [op]) ==>
              Elapsed(After(ops)[key], op.at) >= After(ops)[key].limit.window * 2
  {
    assert (ops + [op])[..|ops|] == ops;
  }

  lemma OtherKeepsTelling<K>(ops: seq<Op<K>>, op: Op<K>, key: K, limit: Limit, b: Bucket, now: nat)
    requires op.Sweep? || op.key != key
    requires BucketTells(ops, key, limit, b, now) && now <= op.at
    ensures BucketTells(ops + [op], key, limit, b, op.at)
  {
    SinceOfOther(ops, op, key, b.start);
    SinceOfOther(ops, op, key, b.start + limit.window);
    SinceOfOther(ops, op, key, b.start - limit.window);
  }

  lemma OtherTracks<K>(ops: seq<Op<K>>, op: Op<K>, key: K, limit: Limit)
    requires op.Sweep? || op.key != key
    requires LastTime(ops) <= op.at && Tracks(ops, key, limit)
    ensures Tracks(ops + [op], key, limit)
  {
    BucketAfterOther(ops, op, key);
    if key in After(ops + [op]) {
      OtherKeepsTelling(ops, op, key, limit, After(ops)[key], LastTime(ops));
    } else {
      SinceOfOther(ops, op, key, op.at - limit.window);
      var since := if key in After(ops) then After(ops)[key].start + limit.window else LastTime(ops) - limit.window;
      SinceShrinks(ops, key, since, op.at - limit.window);
    }
  }

  lemma {:induction false} TrackerTracks<K>(ops: seq<Op<K>>, key: K, limit: Limit)
    requires Chronological(ops) && FixedLimit(ops, key, limit) && limit.window > 0
    ensures Tracks(ops, key, limit)
  {
    if ops != [] {
      var n := |ops| - 1;
      TrackerTracks(ops[..n], key, limit);
      assert LastTime(ops[..n]) <= LastTime(ops) && ops[..n] + [ops[n]] == ops;
      if ops[n].Call? && ops[n].key == key {
        CallTracks(ops[..n], ops[n]);
      } else {
        OtherTracks(ops[..n], ops[n], key, limit);
      }
    }
  }

  /** With a maximum of zero nothing is ever allowed. */
  lemma {:induction false} NothingIsAllowed<K>(ops: seq<Op<K>>, key: K, limit: Limit, from: int, to: int)
    requires FixedLimit(ops, key, limit) && limit.maxCount == 0
    ensures AllowedBetween(ops, key, from, to) == 0
    ensures key in After(ops) ==> After(ops)[key].limit == limit && After(ops)[key].count == 0
  {
    if ops != [] {
      NothingIsAllowed(ops[..|ops| - 1], key, limit, from, to);
    }
  }

  /**
   * Whatever the calls and cleanups, at most twice the maximum is allowed on a key within any
   * interval as long as the window, and each bucket has counted at most the maximum.
   */
  lemma {:induction false} AtMostTwicePerWindow<K>(ops: seq<Op<K>>, key: K, limit: Limit, t: int)
    requires Chronological(ops) && FixedLimit(ops, key, limit) && (limit.window > 0 || limit.maxCount == 0)
    ensures AllowedBetween(ops, key, t, t + limit.window) <= 2 * limit.maxCount
    ensures key in After(ops) ==> After(ops)[key].count <= limit.maxCount
  {
    if limit.maxCount == 0 {
      NothingIsAllowed(ops, key, limit, t, t + limit.window);
    } else if ops != [] {
      TrackerTracks(ops, key, limit);
      var n := |ops| - 1;
      AtMostTwicePerWindow(ops[..n], key, limit, t);
      if LastAllowed(ops) && ops[n].key == key && t <= ops[n].at <= t + limit.window {
        var b := After(ops)[key];
        BetweenIsSince(ops, key, t, t + limit.window);
        SinceShrinks(ops, key, b.start - limit.window, t);
      }
    }
  }
}
