/** The evaluator that keeps a cache of compiled patterns (crates/agentverify-engine/src/engine.rs). */
module PredicateEngine {
  import opened Common
  import opened Json
  import opened Verdicts
  import opened Predicates
  import PredicateLaws

  /** A cache only grew, and only by some patterns. */
  ghost predicate GrewBy(before: map<string, Regex>, after: map<string, Regex>, added: set<string>) {
    && (forall x :: x in before ==> x in after && after[x] == before[x])
    && after.Keys <= before.Keys + added
  }

  lemma GrewTwice(a: map<string, Regex>, b: map<string, Regex>, c: map<string, Regex>, x: set<string>, y: set<string>)
    requires GrewBy(a, b, x) && GrewBy(b, c, y)
    ensures GrewBy(a, c, x + y)
  {
  }

  lemma GrewMore(a: map<string, Regex>, b: map<string, Regex>, x: set<string>, y: set<string>)
    requires GrewBy(a, b, x)
    ensures GrewBy(a, b, x + y)
  {
  }

  class Engine {
    const lib: Library
    var cache: map<string, Regex>

    constructor (lib: Library)
      ensures this.lib == lib && cache == map[] && Valid()
    {
      this.lib := lib;
      this.cache := map[];
    }

    /** Every cached entry is what compiling its pattern yields. */
    ghost predicate Valid()
      reads this
    {
      forall x :: x in cache ==> lib.compile(x) == Ok(cache[x])
    }

    /** The cache only grew since `before`, and only by patterns in `added`. */
    ghost predicate Grew(before: map<string, Regex>, added: set<string>)
      reads this
    {
      GrewBy(before, cache, added)
    }

    method EvalMatches(state: Value, path: string, pattern: string) returns (r: Result<Verdict, RegexError>)
      requires Valid()
      modifies this
      ensures Valid() && Grew(old(cache), {pattern})
      ensures r == Predicates.EvalMatches(lib, path, pattern, state)
    {
      var actual := LookUp(state, path);
      if actual.None? || !actual.value.Str? {
        return Ok(Failed);
      }
      var regex;
      if pattern in cache {
        regex := cache[pattern];
      } else {
        var compiled := lib.compile(pattern);
        if compiled.Err? {
          return Err(compiled.error);
        }
        regex := compiled.value;
        cache := cache[pattern := regex];
      }
      return Ok(VerdictOf(lib.isMatch(regex, actual.value.s)));
    }

    /** With any valid cache the answer, and the exact error, is that of evaluation without one. */
    method Evaluate(p: Predicate, state: Value, args: Value) returns (r: Result<Verdict, RegexError>)
      requires Valid()
      modifies this
      ensures Valid() && Grew(old(cache), PredicateLaws.Patterns(p))
      ensures r == Eval(lib, p, state, args)
      decreases p, 1
    {
      hide HoldsLeaf, Predicates.EvalMatches, Negation, Implication;
      match p
      case All(ps) => r := EvalAll(ps, state, args);
      case Any(ps) => r := EvalAny(ps, state, args);
      case Not(q) => r := EvalNot(q, state, args);
      case Implies(a, c) => r := EvalImplies(a, c, state, args, p);
      case Matches(path, pattern) => r := EvalMatches(state, path, pattern);
      case _ => r := Ok(VerdictOf(HoldsLeaf(lib, p, state, args)));
    }

    method EvalNot(q: Predicate, state: Value, args: Value) returns (r: Result<Verdict, RegexError>)
      requires Valid()
      modifies this
      ensures Valid() && Grew(old(cache), PredicateLaws.Patterns(q))
      ensures r == Negation(Eval(lib, q, state, args))
      decreases q, 2
    {
      hide Eval, PredicateLaws.Patterns;
      r := Evaluate(q, state, args);
      if r.Ok? {
        match r.value
        case Verified => return Ok(Failed);
        case Failed => return Ok(Verified);
        case _ => return Ok(Unknown);
      }
    }

    /** The consequent is evaluated, and its patterns compiled, only under a verified antecedent. */
    method EvalImplies(a: Predicate, c: Predicate, state: Value, args: Value, ghost whole: Predicate)
      returns (r: Result<Verdict, RegexError>)
      requires Valid() && whole == Implies(a, c)
      modifies this
      ensures Valid() && Grew(old(cache), PredicateLaws.Patterns(a) + PredicateLaws.Patterns(c))
      ensures r == Implication(Eval(lib, a, state, args), Eval(lib, c, state, args))
      decreases whole, 0
    {
      hide Eval, PredicateLaws.Patterns, GrewBy;
      ghost var before := cache;
      r := Evaluate(a, state, args);
      ghost var between := cache;
      GrewMore(before, between, PredicateLaws.Patterns(a), PredicateLaws.Patterns(c));
      if r.Err? {
        return;
      }
      if !r.value.Verified? {
        return Ok(Verified);
      }
      r := Evaluate(c, state, args);
      GrewTwice(before, between, cache, PredicateLaws.Patterns(a), PredicateLaws.Patterns(c));
      if r.Ok? {
        r := Ok(VerdictOf(r.value.Verified?));
      }
    }

    method EvalAll(ps: seq<Predicate>, state: Value, args: Value) returns (r: Result<Verdict, RegexError>)
      requires Valid()
      modifies this
      ensures Valid() && Grew(old(cache), PredicateLaws.Patterns(All(ps)))
      ensures r == Predicates.EvalAll(lib, ps, state, args)
      decreases ps, 2
    {
      for i := 0 to |ps|
        invariant Valid() && Grew(old(cache), PredicateLaws.Patterns(All(ps)))
        invariant Predicates.EvalAll(lib, ps[i..], state, args) == Predicates.EvalAll(lib, ps, state, args)
      {
        assert PredicateLaws.Patterns(ps[i]) <= PredicateLaws.Patterns(All(ps));
        assert ps[i..][1..] == ps[i + 1..];
        r := Evaluate(ps[i], state, args);
        if r.Err? {
          return;
        }
        if !r.value.Verified? {
          return Ok(Failed);
        }
      }
      return Ok(Verified);
    }

    method EvalAny(ps: seq<Predicate>, state: Value, args: Value) returns (r: Result<Verdict, RegexError>)
      requires Valid()
      modifies this
      ensures Valid() && Grew(old(cache), PredicateLaws.Patterns(Any(ps)))
      ensures r == Predicates.EvalAny(lib, ps, state, args)
      decreases ps, 2
    {
      for i := 0 to |ps|
        invariant Valid() && Grew(old(cache), PredicateLaws.Patterns(Any(ps)))
        invariant Predicates.EvalAny(lib, ps[i..], state, args) == Predicates.EvalAny(lib, ps, state, args)
      {
        assert PredicateLaws.Patterns(ps[i]) <= PredicateLaws.Patterns(Any(ps));
        assert ps[i..][1..] == ps[i + 1..];
        r := Evaluate(ps[i], state, args);
        if r.Err? {
          return;
        }
        if r.value.Verified? {
          return Ok(Verified);
        }
      }
      return Ok(Failed);
    }
  }
}
