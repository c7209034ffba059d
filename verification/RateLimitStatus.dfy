/** What the status of a rate limit says, on the calls made so far alone (crates/agentverify-policy/src/policy.rs). */
module RateLimitStatus {
  import opened Common
  import opened RateLimits
  import opened RateLimitLaws

  /** When the latest window of a key began: at a call that found none, or one that was over. */
  function WindowStart<K(==)>(ops: seq<Op<K>>, key: K, window: nat): Option<nat> {
    if ops == [] then None
    else
      var earlier, op := WindowStart(ops[..|ops| - 1], key, window), ops[|ops| - 1];
      if op.Sweep? || op.key != key || (earlier.Some? && op.at < earlier.value + window) then earlier
      else Some(op.at)
  }

  /** A bucket began with its window; one that is gone had its window long over. */
  ghost predicate FollowsWindow<K>(ops: seq<Op<K>>, key: K, window: nat) {
    var start := WindowStart(ops, key, window);
    if key in After(ops) then start == Some(After(ops)[key].start)
    else start.Some? ==> start.value + window <= LastTime(ops)
  }

  lemma WindowOfOneMore<K>(ops: seq<Op<K>>, op: Op<K>, key: K, window: nat)
    ensures WindowStart(ops + [op], key, window) ==
            var earlier := WindowStart(ops, key, window);
            if op.Sweep? || op.key != key || (earlier.Some? && op.at < earlier.value + window) then earlier
            else Some(op.at)
  {
    assert (ops + [op])[..|ops|] == ops;
  }

  lemma CallFollows<K>(ops: seq<Op<K>>, op: Op<K>)
    requires op.Call? && op.limit.window > 0 && LastTime(ops) <= op.at
    requires Tracks(ops, op.key, op.limit) && FollowsWindow(ops, op.key, op.limit.window)
    ensures FollowsWindow(ops + [op], op.key, op.limit.window)
  {
    WindowOfOneMore(ops, op, op.key, op.limit.window);
    OneMoreCall(ops, op, 0, 0);
    hide AllowedSince, AllowedBetween, WindowStart;
  }

  lemma OtherFollows<K>(ops: seq<Op<K>>, op: Op<K>, key: K, limit: Limit)
    requires op.Sweep? || op.key != key
    requires LastTime(ops) <= op.at && Tracks(ops, key, limit) && FollowsWindow(ops, key, limit.window)
    ensures FollowsWindow(ops + [op], key, limit.window)
  {
    WindowOfOneMore(ops, op, key, limit.window);
    BucketAfterOther(ops, op, key);
    OtherTracks(ops, op, key, limit);
    if key !in After(ops) {
      assert (ops + [op])[..|ops|] == ops;
    }
    hide AllowedSince, AllowedBetween, WindowStart;
  }

  lemma {:induction false} TrackerFollows<K>(ops: seq<Op<K>>, key: K, limit: Limit)
    requires Chronological(ops) && FixedLimit(ops, key, limit) && limit.window > 0
    ensures FollowsWindow(ops, key, limit.window)
  {
    if ops != [] {
      hide FollowsWindow, Tracks;
      var n := |ops| - 1;
      TrackerFollows(ops[..n], key, limit);
      TrackerTracks(ops[..n], key, limit);
      assert LastTime(ops[..n]) <= LastTime(ops) && ops[..n] + [ops[n]] == ops;
      if ops[n].Call? && ops[n].key == key {
        CallFollows(ops[..n], ops[n]);
      } else {
        OtherFollows(ops[..n], ops[n], key, limit);
      }
    }
  }

  /**
   * The status while a window is open: the calls allowed since it began, what is left of the maximum, and the
   * whole seconds left of the window, none of it if the window ends between the two readings. When none is
   * open, nothing has been used.
   */
  lemma StatusTells<K(!new)>(ops: seq<Op<K>>, key: K, limit: Limit, t: Reading)
    requires Chronological(ops) && FixedLimit(ops, key, limit) && limit.window > 0
    requires LastTime(ops) <= t.first <= t.second
    ensures var start, status := WindowStart(ops, key, limit.window), StatusOf(After(ops), key, limit, t);
            if start.None? || start.value + limit.window <= t.first then
              status == Some(Status(0, limit.maxCount, limit.maxCount, 0))
            else if start.value + limit.window < t.second then status == None
            else
              var used := AllowedSince(ops, key, start.value);
              && used <= limit.maxCount
              && status == Some(Status(used, limit.maxCount, limit.maxCount - used,
                                       (start.value + limit.window - t.second) / 1_000_000_000))
  {
    TrackerFollows(ops, key, limit);
    TrackerTracks(ops, key, limit);
    hide After, AllowedSince, WindowStart;
  }

  /** A cleanup drops a bucket exactly when two windows have passed since its window began. */
  lemma SweptIff<K(!new)>(ops: seq<Op<K>>, key: K, limit: Limit, at: nat)
    requires Chronological(ops) && FixedLimit(ops, key, limit) && limit.window > 0 && LastTime(ops) <= at
    requires key in After(ops)
    ensures WindowStart(ops, key, limit.window).Some?
    ensures key in After(ops + [Sweep(at)]) <==>
            at < WindowStart(ops, key, limit.window).value + 2 * limit.window
    ensures key in After(ops + [Sweep(at)]) ==> After(ops + [Sweep(at)])[key] == After(ops)[key]
  {
    TrackerFollows(ops, key, limit);
    TrackerTracks(ops, key, limit);
    assert (ops + [Sweep(at)])[..|ops|] == ops;
    hide AllowedSince, WindowStart;
  }

  /** The limit of the first call on a key. */
  function FirstLimit<K(==)>(ops: seq<Op<K>>, key: K): Option<Limit> {
    if ops == [] then None
    else if ops[0].Call? && ops[0].key == key then Some(ops[0].limit)
    else FirstLimit(ops[1..], key)
  }

  lemma {:induction false} FirstLimitOfOneMore<K>(ops: seq<Op<K>>, op: Op<K>, key: K)
    ensures FirstLimit(ops + [op], key) ==
            if FirstLimit(ops, key).Some? then FirstLimit(ops, key)
            else if op.Call? && op.key == key then Some(op.limit)
            else None
  {
    if ops != [] {
      FirstLimitOfOneMore(ops[1..], op, key);
      assert (ops + [op])[1..] == ops[1..] + [op];
    } else {
      assert ops + [op] == [op];
    }
  }

  /** Until a cleanup drops it, a bucket keeps to the limit of the call that made it, whatever later calls ask for. */
  lemma {:induction false} FirstLimitRules<K>(ops: seq<Op<K>>, key: K)
    requires forall i :: 0 <= i < |ops| ==> ops[i].Call?
    ensures if key in After(ops) then FirstLimit(ops, key) == Some(After(ops)[key].limit)
            else FirstLimit(ops, key).None?
  {
    if ops != [] {
      var n := |ops| - 1;
      FirstLimitRules(ops[..n], key);
      FirstLimitOfOneMore(ops[..n], ops[n], key);
      assert ops[..n] + [ops[n]] == ops;
      hide FirstLimit;
    }
  }

  /** So a later call is counted against that limit. */
  lemma LaterLimitsAreIgnored<K(!new)>(ops: seq<Op<K>>, key: K, limit: Limit, at: nat)
    requires forall i :: 0 <= i < |ops| ==> ops[i].Call?
    requires FirstLimit(ops, key).Some?
    ensures CheckAndIncrement(After(ops), key, limit, at) ==
            CheckAndIncrement(After(ops), key, FirstLimit(ops, key).value, at)
  {
    FirstLimitRules(ops, key);
    hide FirstLimit, After;
  }

  /** How many more calls a key may make at a time. */
  function Room<K>(buckets: map<K, Bucket>, key: K, limit: Limit, at: nat): nat {
    Max(0, limit.maxCount - ResetIfExpired(GetOrCreate(buckets, key, limit, at), at).count)
  }

  ghost predicate KeepsLimit<K>(buckets: map<K, Bucket>, key: K, limit: Limit) {
    key in buckets ==> buckets[key].limit == limit
  }

  lemma OneMoreUsesRoom<K>(buckets: map<K, Bucket>, key: K, limit: Limit, at: nat)
    requires KeepsLimit(buckets, key, limit) && limit.window > 0
    ensures var d := CheckAndIncrement(buckets, key, limit, at);
            && KeepsLimit(d.buckets, key, limit) && (d.allowed <==> Room(buckets, key, limit, at) > 0)
            && Room(d.buckets, key, limit, at) == Max(0, Room(buckets, key, limit, at) - 1)
  {
  }

  lemma {:induction false} BurstUsesRoom<K>(ops: seq<Op<K>>, key: K, limit: Limit, at: nat, n: nat)
    requires KeepsLimit(After(ops), key, limit) && limit.window > 0
    ensures var all, room := ops + Burst(key, limit, at, n), Room(After(ops), key, limit, at);
            && KeepsLimit(After(all), key, limit) && Room(After(all), key, limit, at) == Max(0, room - n)
            && AllowedSince(all, key, 0) == AllowedSince(ops, key, 0) + Min(n, room)
  {
    hide After, Room, AllowedSince, AllowedBetween, CheckAndIncrement, KeepsLimit;
    if n == 0 {
      assert ops + Burst(key, limit, at, 0) == ops;
    } else {
      BurstUsesRoom(ops, key, limit, at, n - 1);
      var shorter, call := ops + Burst(key, limit, at, n - 1), Call(key, limit, at);
      assert ops + Burst(key, limit, at, n) == shorter + [call];
      OneMoreUsesRoom(After(shorter), key, limit, at);
      SinceOfCall(shorter, call, 0);
      OneMoreCall(shorter, call, 0, 0);
    }
  }

  /** What remains is what may still be called: of any number of calls at the reading, that many are allowed. */
  lemma RemainingIsAllowed<K(!new)>(ops: seq<Op<K>>, key: K, limit: Limit, t: Reading, n: nat)
    requires Chronological(ops) && FixedLimit(ops, key, limit) && limit.window > 0
    requires LastTime(ops) <= t.first <= t.second
    ensures var status := StatusOf(After(ops), key, limit, t);
            status.Some? ==> AllowedSince(ops + Burst(key, limit, t.first, n), key, 0) ==
                             AllowedSince(ops, key, 0) + Min(n, status.value.remaining)
  {
    TrackerTracks(ops, key, limit);
    BurstUsesRoom(ops, key, limit, t.first, n);
    hide After, AllowedSince, Burst;
  }
}
