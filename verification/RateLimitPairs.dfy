/**
 * The per-key tracker files a pair of action and idempotency key under one string
 * (crates/agentverify-policy/src/policy.rs): which pairs it keeps apart.
 */
module RateLimitPairs {
  import opened RateLimits
  import opened RateLimitLaws

  type Pair = (string, string)

  /**
   * Two distinct pairs share a bucket exactly when one action name is the other extended by a colon
   * and a prefix that the other key begins with.
   */
  lemma SharedBuckets(a: string, k: string, b: string, l: string)
    ensures EffectiveKey(a, k) == EffectiveKey(b, l) <==>
            || (a == b && k == l)
            || (exists x :: b == a + ":" + x && k == x + ":" + l)
            || (exists x :: a == b + ":" + x && l == x + ":" + k)
  {
    var s, t := EffectiveKey(a, k), EffectiveKey(b, l);
    if s == t {
      if |a| == |b| {
        assert a == s[..|a|] == b && k == s[|a| + 1..] == l;
      } else if |a| < |b| {
        Overlap(a, k, b, l);
      } else {
        Overlap(b, l, a, k);
      }
    }
    if x :| b == a + ":" + x && k == x + ":" + l {
      assert s == t;
    }
    if x :| a == b + ":" + x && l == x + ":" + k {
      assert s == t;
    }
  }

  lemma Overlap(a: string, k: string, b: string, l: string)
    requires EffectiveKey(a, k) == EffectiveKey(b, l) && |a| < |b|
    ensures exists x :: b == a + ":" + x && k == x + ":" + l
  {
    var s := EffectiveKey(a, k);
    var x := b[|a| + 1..];
    assert b == s[..|b|] && a == s[..|a|] && s[|a|] == ':';
    assert b == a + ":" + x;
    assert k == s[|a| + 1..] && l == s[|b| + 1..] && s[|b|] == ':';
    assert k == x + ":" + l;
  }

  lemma ColonFreeActionsDoNotShare(a: string, k: string, b: string, l: string)
    requires ':' !in a && ':' !in b && EffectiveKey(a, k) == EffectiveKey(b, l)
    ensures a == b && k == l
  {
    SharedBuckets(a, k, b, l);
    forall c: string, d: string, x: string | d == c + ":" + x ensures ':' in d {
      assert d[|c|] == ':';
    }
  }

  /** Different actions with the same key are always filed apart. */
  lemma SameKeyIsFiledApart(a: string, b: string, k: string)
    requires EffectiveKey(a, k) == EffectiveKey(b, k)
    ensures a == b
  {
    var s := EffectiveKey(a, k);
    assert a == s[..|a|] && b == s[..|b|] && |a| == |b|;
  }

  function EffectiveOp(op: Op<Pair>): Op<string> {
    match op
    case Call((action, key), limit, at) => Call(EffectiveKey(action, key), limit, at)
    case Sweep(at) => Sweep(at)
  }

  function EffectiveOps(ops: seq<Op<Pair>>): seq<Op<string>> {
    if ops == [] then [] else EffectiveOps(ops[..|ops| - 1]) + [EffectiveOp(ops[|ops| - 1])]
  }

  /** No two of these pairs are filed under one string. */
  ghost predicate FiledApart(pairs: iset<Pair>) {
    forall p, q :: p in pairs && q in pairs && EffectiveKey(p.0, p.1) == EffectiveKey(q.0, q.1) ==> p == q
  }

  ghost predicate CallsOn(ops: seq<Op<Pair>>, pairs: iset<Pair>) {
    forall i :: 0 <= i < |ops| && ops[i].Call? ==> ops[i].key in pairs
  }

  /** The string-keyed buckets are the pair-keyed ones under their strings. */
  ghost predicate Encodes(flat: map<string, Bucket>, byPair: map<Pair, Bucket>, pairs: iset<Pair>) {
    && (forall p :: p in byPair ==>
         p in pairs && EffectiveKey(p.0, p.1) in flat && flat[EffectiveKey(p.0, p.1)] == byPair[p])
    && (forall s :: s in flat ==> exists p :: p in byPair && s == EffectiveKey(p.0, p.1))
  }

  lemma UpdateEncodes(flat: map<string, Bucket>, byPair: map<Pair, Bucket>, pairs: iset<Pair>, p: Pair, bucket: Bucket)
    requires FiledApart(pairs) && Encodes(flat, byPair, pairs) && p in pairs
    ensures Encodes(flat[EffectiveKey(p.0, p.1) := bucket], byPair[p := bucket], pairs)
  {
    hide EffectiveKey;
    var s := EffectiveKey(p.0, p.1);
    var a, b := flat[s := bucket], byPair[p := bucket];
    forall t | t in a ensures exists q :: q in b && t == EffectiveKey(q.0, q.1) {
      if t == s {
        assert p in b;
      } else {
        var q :| q in byPair && t == EffectiveKey(q.0, q.1);
        assert q in b;
      }
    }
  }

  lemma SameBucket(flat: map<string, Bucket>, byPair: map<Pair, Bucket>, pairs: iset<Pair>, p: Pair)
    requires FiledApart(pairs) && Encodes(flat, byPair, pairs) && p in pairs
    ensures var s := EffectiveKey(p.0, p.1); (s in flat <==> p in byPair) && (p in byPair ==> flat[s] == byPair[p])
  {
    hide EffectiveKey;
  }

  lemma CallEncodes(
    flat: map<string, Bucket>, byPair: map<Pair, Bucket>, pairs: iset<Pair>, p: Pair, limit: Limit, now: nat)
    requires FiledApart(pairs) && Encodes(flat, byPair, pairs) && p in pairs
    ensures var s := EffectiveKey(p.0, p.1);
            var a, b := CheckAndIncrement(flat, s, limit, now), CheckAndIncrement(byPair, p, limit, now);
            a.allowed == b.allowed && Encodes(a.buckets, b.buckets, pairs)
  {
    hide EffectiveKey, Encodes, FiledApart;
    SameBucket(flat, byPair, pairs, p);
    UpdateEncodes(flat, byPair, pairs, p, CheckAndIncrement(byPair, p, limit, now).buckets[p]);
  }

  lemma CleanupEncodes(flat: map<string, Bucket>, byPair: map<Pair, Bucket>, pairs: iset<Pair>, now: nat)
    requires Encodes(flat, byPair, pairs)
    ensures Encodes(Cleanup(flat, now), Cleanup(byPair, now), pairs)
  {
    var a, b := Cleanup(flat, now), Cleanup(byPair, now);
    forall t | t in a ensures exists q :: q in b && t == EffectiveKey(q.0, q.1) {
      var q :| q in byPair && t == EffectiveKey(q.0, q.1);
      assert q in b;
    }
  }

  /** On pairs filed apart the per-key tracker behaves as one keyed by the pair. */
  lemma {:induction false} PerKeyTrackerRefinesPairs(ops: seq<Op<Pair>>, pairs: iset<Pair>)
    requires FiledApart(pairs) && CallsOn(ops, pairs)
    ensures Answers(EffectiveOps(ops)) == Answers(ops) && Encodes(After(EffectiveOps(ops)), After(ops), pairs)
  {
    if ops != [] {
      var n := |ops| - 1;
      var pre := ops[..n];
      PerKeyTrackerRefinesPairs(pre, pairs);
      hide FiledApart, Encodes, CheckAndIncrement, Cleanup;
      assert ops == pre + [ops[n]] && EffectiveOps(ops) == EffectiveOps(pre) + [EffectiveOp(ops[n])];
      match ops[n]
      case Call(p, limit, at) =>
        CallEncodes(After(EffectiveOps(pre)), After(pre), pairs, p, limit, at);
        AnswersOfCall(pre, ops[n]);
        AnswersOfCall(EffectiveOps(pre), EffectiveOp(ops[n]));
      case Sweep(at) =>
        CleanupEncodes(After(EffectiveOps(pre)), After(pre), pairs, at);
        AnswersOfSweep(pre, ops[n]);
        AnswersOfSweep(EffectiveOps(pre), EffectiveOp(ops[n]));
    }
  }

  /** Two calls within the window, one on each of two pairs. */
  function OneEach(p: Pair, q: Pair): seq<Op<Pair>> {
    [] + [Call(p, Limit(1, 1), 0)] + [Call(q, Limit(1, 1), 0)]
  }

  /** Two distinct pairs under one string: the call on the second is counted against the first. */
  lemma SharedStringShows(p: Pair, q: Pair)
    requires p != q && EffectiveKey(p.0, p.1) == EffectiveKey(q.0, q.1)
    ensures Answers(OneEach(p, q)) == [true, true] && Answers(EffectiveOps(OneEach(p, q))) == [true, false]
  {
    var s, limit := EffectiveKey(p.0, p.1), Limit(1, 1);
    var none: seq<Op<Pair>>, flat: seq<Op<string>> := [], [];
    var one, flatOne := none + [Call(p, limit, 0)], flat + [Call(s, limit, 0)];
    AnswersOfCall(none, Call(p, limit, 0));
    AnswersOfCall(one, Call(q, limit, 0));
    AnswersOfCall(flat, Call(s, limit, 0));
    AnswersOfCall(flatOne, Call(s, limit, 0));
    assert one[..0] == none && EffectiveOps(one) == flatOne;
    assert OneEach(p, q)[..1] == one && EffectiveOps(OneEach(p, q)) == flatOne + [Call(s, limit, 0)];
  }

  /** Whatever the calls on these pairs, the per-key tracker answers as one keyed by the pair. */
  ghost predicate AnswersAsPairs(pairs: iset<Pair>) {
    forall ops :: CallsOn(ops, pairs) ==> Answers(EffectiveOps(ops)) == Answers(ops)
  }

  /** Exactly the sets of pairs that are filed apart are tracked apart. */
  lemma AnswersAsPairsIff(pairs: iset<Pair>)
    ensures AnswersAsPairs(pairs) <==> FiledApart(pairs)
  {
    if FiledApart(pairs) {
      forall ops | CallsOn(ops, pairs) ensures Answers(EffectiveOps(ops)) == Answers(ops) {
        PerKeyTrackerRefinesPairs(ops, pairs);
      }
    } else {
      var p, q :| p in pairs && q in pairs && EffectiveKey(p.0, p.1) == EffectiveKey(q.0, q.1) && p != q;
      SharedStringShows(p, q);
      assert CallsOn(OneEach(p, q), pairs);
    }
  }

  /** All pairs with a colon-free action are filed apart. */
  lemma ColonFreeActionsAreFiledApart()
    ensures FiledApart(iset p: Pair | ':' !in p.0)
  {
    forall p: Pair, q: Pair | ':' !in p.0 && ':' !in q.0 && EffectiveKey(p.0, p.1) == EffectiveKey(q.0, q.1)
      ensures p == q {
      ColonFreeActionsDoNotShare(p.0, p.1, q.0, q.1);
    }
  }

  /** Neither the key nor the rest of the action name has a colon. */
  predicate Alone(name: string, key: string) {
    name == "" || (':' !in key && ':' !in name[1..])
  }

  lemma ColonInside(a: string, b: string)
    ensures var s := a + ":" + b; ':' in s && (a != "" ==> ':' in s[1..])
  {
    var s := a + ":" + b;
    assert s[|a|] == ':';
    if a != "" {
      assert s[1..][|a| - 1] == ':';
    }
  }

  /** Then, and only then, no other action with a name is filed under the string of the pair. */
  lemma AloneIff(name: string, key: string)
    requires name != ""
    ensures Alone(name, key) <==> forall a, k :: a != "" && EffectiveKey(a, k) == EffectiveKey(name, key) ==> a == name
  {
    if Alone(name, key) {
      forall a, k | a != "" && EffectiveKey(a, k) == EffectiveKey(name, key) ensures a == name {
        SharedBuckets(a, k, name, key);
        if x :| name == a + ":" + x && k == x + ":" + key {
          ColonInside(a, x);
          assert false;
        }
        if x :| a == name + ":" + x && key == x + ":" + k {
          ColonInside(x, k);
          assert false;
        }
      }
    } else {
      var a, k := OtherPair(name, key);
    }
  }

  lemma OtherPair(name: string, key: string) returns (a: string, k: string)
    requires name != "" && !Alone(name, key)
    ensures a != "" && a != name && EffectiveKey(a, k) == EffectiveKey(name, key)
  {
    if ':' in key {
      var i :| 0 <= i < |key| && key[i] == ':';
      a, k := name + ":" + key[..i], key[i + 1..];
      assert key == key[..i] + ":" + k;
    } else {
      var i :| 1 <= i < |name| && name[i] == ':';
      a, k := name[..i], name[i + 1..] + ":" + key;
      assert name == a + ":" + name[i + 1..];
    }
  }
}
