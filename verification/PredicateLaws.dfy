/** Laws of predicate evaluation: a boolean reference semantics, duality, and substitution. */
module PredicateLaws {
  import opened Common
  import opened Json
  import opened Verdicts
  import opened Predicates

  /** Every pattern written anywhere in a tree. */
  function Patterns(p: Predicate): set<string> {
    match p
    case Matches(_, pattern) => {pattern}
    case All(ps) => set i, x | 0 <= i < |ps| && x in Patterns(ps[i]) :: x
    case Any(ps) => set i, x | 0 <= i < |ps| && x in Patterns(ps[i]) :: x
    case Not(q) => Patterns(q)
    case Implies(a, c) => Patterns(a) + Patterns(c)
    case _ => {}
  }

  /** Classical truth: no order of evaluation, no errors. A pattern that does not compile matches nothing. */
  predicate Truth(lib: Library, p: Predicate, state: Value, args: Value) {
    match p
    case All(ps) => forall i :: 0 <= i < |ps| ==> Truth(lib, ps[i], state, args)
    case Any(ps) => exists i :: 0 <= i < |ps| && Truth(lib, ps[i], state, args)
    case Not(q) => !Truth(lib, q, state, args)
    case Implies(a, c) => Truth(lib, a, state, args) ==> Truth(lib, c, state, args)
    case Matches(path, pattern) =>
      var actual := GetPath(state, path);
      && actual.Some? && actual.value.Str?
      && lib.compile(pattern).Ok?
      && lib.isMatch(lib.compile(pattern).value, actual.value.s)
    case _ => HoldsLeaf(lib, p, state, args)
  }

  /** What it means for an answer to be right. */
  ghost predicate Agrees(lib: Library, p: Predicate, state: Value, args: Value, r: Result<Verdict, RegexError>) {
    match r
    case Ok(v) => v == VerdictOf(Truth(lib, p, state, args))
    case Err(e) => exists x :: x in Patterns(p) && lib.compile(x) == Err(e)
  }

  /**
   * An answer is the classical truth value, however much was skipped; an error is the compile
   * error of some pattern of the tree.
   */
  lemma {:induction false} AnswersAreTrue(lib: Library, p: Predicate, state: Value, args: Value)
    ensures Agrees(lib, p, state, args, Eval(lib, p, state, args))
    decreases p, 0
  {
    hide HoldsLeaf, EvalMatches, EvalAll, EvalAny, Negation, Implication;
    match p
    case All(ps) => AllIsTrue(lib, ps, 0, state, args); assert ps[0..] == ps;
    case Any(ps) => AnyIsTrue(lib, ps, 0, state, args); assert ps[0..] == ps;
    case Not(q) => AnswersAreTrue(lib, q, state, args); NegationIsTrue(lib, q, state, args, Eval(lib, q, state, args));
    case Implies(a, c) =>
      AnswersAreTrue(lib, a, state, args);
      AnswersAreTrue(lib, c, state, args);
      ImplicationIsTrue(lib, a, c, state, args, Eval(lib, a, state, args), Eval(lib, c, state, args));
    case _ => LeafIsTrue(lib, p, state, args);
  }

  lemma LeafIsTrue(lib: Library, p: Predicate, state: Value, args: Value)
    requires IsLeaf(p)
    ensures Agrees(lib, p, state, args, Eval(lib, p, state, args))
  {
    if p.Matches? {
      assert p.pattern in Patterns(p);
    }
  }

  lemma NegationIsTrue(lib: Library, q: Predicate, state: Value, args: Value, r: Result<Verdict, RegexError>)
    requires Agrees(lib, q, state, args, r)
    ensures Agrees(lib, Not(q), state, args, Negation(r))
  {
    assert Patterns(Not(q)) == Patterns(q);
  }

  lemma ImplicationIsTrue(lib: Library, a: Predicate, c: Predicate, state: Value, args: Value,
                          ra: Result<Verdict, RegexError>, rc: Result<Verdict, RegexError>)
    requires Agrees(lib, a, state, args, ra) && Agrees(lib, c, state, args, rc)
    ensures Agrees(lib, Implies(a, c), state, args, Implication(ra, rc))
  {
    assert Patterns(Implies(a, c)) == Patterns(a) + Patterns(c);
  }

  lemma {:induction false} AllIsTrue(lib: Library, ps: seq<Predicate>, from: nat, state: Value, args: Value)
    requires from <= |ps|
    ensures match EvalAll(lib, ps[from..], state, args)
            case Ok(v) => v == VerdictOf(forall i :: from <= i < |ps| ==> Truth(lib, ps[i], state, args))
            case Err(e) => exists x :: x in Patterns(All(ps)) && lib.compile(x) == Err(e)
    decreases ps, |ps| - from
  {
    if from < |ps| {
      AnswersAreTrue(lib, ps[from], state, args);
      AllIsTrue(lib, ps, from + 1, state, args);
      assert ps[from..][1..] == ps[from + 1..];
      assert Patterns(ps[from]) <= Patterns(All(ps));
    }
  }

  lemma {:induction false} AnyIsTrue(lib: Library, ps: seq<Predicate>, from: nat, state: Value, args: Value)
    requires from <= |ps|
    ensures match EvalAny(lib, ps[from..], state, args)
            case Ok(v) => v == VerdictOf(exists i :: from <= i < |ps| && Truth(lib, ps[i], state, args))
            case Err(e) => exists x :: x in Patterns(Any(ps)) && lib.compile(x) == Err(e)
    decreases ps, |ps| - from
  {
    if from < |ps| {
      AnswersAreTrue(lib, ps[from], state, args);
      AnyIsTrue(lib, ps, from + 1, state, args);
      assert ps[from..][1..] == ps[from + 1..];
      assert Patterns(ps[from]) <= Patterns(Any(ps));
    }
  }

  /** When every pattern compiles, evaluation is exactly classical truth. */
  lemma CleanTreesAlwaysAnswer(lib: Library, p: Predicate, state: Value, args: Value)
    requires forall x :: x in Patterns(p) ==> lib.compile(x).Ok?
    ensures Eval(lib, p, state, args) == Ok(VerdictOf(Truth(lib, p, state, args)))
  {
    AnswersAreTrue(lib, p, state, args);
  }

  /** Negation is an involution, on verdicts and on the error that surfaces. */
  lemma NotIsAnInvolution(lib: Library, p: Predicate, state: Value, args: Value)
    ensures Eval(lib, Not(Not(p)), state, args) == Eval(lib, p, state, args)
  {
    EvaluationIsSettled(lib, p, state, args);
  }

  lemma AnyOfOne(lib: Library, q: Predicate, state: Value, args: Value)
    ensures EvalAny(lib, [q], state, args) == Eval(lib, q, state, args)
  {
    EvaluationIsSettled(lib, q, state, args);
    assert [q][1..] == [];
  }

  /** An implication is a disjunction, including which of two errors surfaces. */
  lemma ImpliesIsADisjunction(lib: Library, a: Predicate, c: Predicate, state: Value, args: Value)
    ensures Eval(lib, Implies(a, c), state, args) == Eval(lib, Any([Not(a), c]), state, args)
  {
    hide HoldsLeaf, EvalMatches;
    EvaluationIsSettled(lib, a, state, args);
    EvaluationIsSettled(lib, c, state, args);
    AnyOfOne(lib, c, state, args);
    var ps := [Not(a), c];
    assert ps[0] == Not(a) && ps[1..] == [c];
    assert Eval(lib, ps[0], state, args) == Negation(Eval(lib, a, state, args));
    assert EvalAny(lib, ps, state, args) == Eval(lib, Any(ps), state, args);
  }

  function Negated(ps: seq<Predicate>): seq<Predicate> {
    if ps == [] then [] else [Not(ps[0])] + Negated(ps[1..])
  }

  lemma {:induction false} DeMorganOnLists(lib: Library, ps: seq<Predicate>, state: Value, args: Value)
    ensures Negation(EvalAll(lib, ps, state, args)) == EvalAny(lib, Negated(ps), state, args)
  {
    if ps != [] {
      EvaluationIsSettled(lib, ps[0], state, args);
      DeMorganOnLists(lib, ps[1..], state, args);
      assert Negated(ps)[1..] == Negated(ps[1..]);
    }
  }

  /** De Morgan's law holds with short-circuiting and errors: both sides stop at the same place. */
  lemma DeMorgan(lib: Library, ps: seq<Predicate>, state: Value, args: Value)
    ensures Eval(lib, Not(All(ps)), state, args) == Eval(lib, Any(Negated(ps)), state, args)
  {
    DeMorganOnLists(lib, ps, state, args);
  }

  /** The tree with every `$args.` reference replaced by what it names. */
  function Substituted(p: Predicate, args: Value): Predicate
    decreases p, 0
  {
    match p
    case Equals(path, v) => Equals(path, ResolveValue(v, args))
    case NotEquals(path, v) => NotEquals(path, ResolveValue(v, args))
    case Contains(path, v) => Contains(path, ResolveValue(v, args))
    case GreaterThan(path, v) => GreaterThan(path, ResolveValue(v, args))
    case LessThan(path, v) => LessThan(path, ResolveValue(v, args))
    case All(ps) => All(SubstitutedList(ps, args))
    case Any(ps) => Any(SubstitutedList(ps, args))
    case Not(q) => Not(Substituted(q, args))
    case Implies(a, c) => Implies(Substituted(a, args), Substituted(c, args))
    case _ => p
  }

  function SubstitutedList(ps: seq<Predicate>, args: Value): seq<Predicate>
    decreases ps, 0
  {
    if ps == [] then [] else [Substituted(ps[0], args)] + SubstitutedList(ps[1..], args)
  }

  /** `Null` has no children, so under `Null` arguments no reference resolves. */
  lemma NullArgumentsResolveNothing(v: Value)
    ensures ResolveValue(v, Null) == v
  {
    if v.Str? && ARGS_PREFIX <= v.s {
      var segments := Split(v.s[|ARGS_PREFIX|..], '.');
      assert Child(Null, segments[0]).None?;
    }
  }

  /** Arguments can be substituted ahead of time. */
  lemma {:induction false} SubstitutionCommutesWithEvaluation(lib: Library, p: Predicate, state: Value, args: Value)
    ensures Eval(lib, p, state, args) == Eval(lib, Substituted(p, args), state, Null)
    decreases p, 0
  {
    hide HoldsLeaf, EvalMatches, EvalAll, EvalAny, SubstitutedList, Negation, Implication, ResolveValue;
    match p
    case All(ps) => SubstitutionCommutesWithLists(lib, ps, state, args);
    case Any(ps) => SubstitutionCommutesWithLists(lib, ps, state, args);
    case Not(q) => SubstitutionCommutesWithEvaluation(lib, q, state, args);
    case Implies(a, c) =>
      SubstitutionCommutesWithEvaluation(lib, a, state, args);
      SubstitutionCommutesWithEvaluation(lib, c, state, args);
    case _ => SubstitutionCommutesWithLeaf(lib, p, state, args);
  }

  lemma SubstitutionCommutesWithLeaf(lib: Library, p: Predicate, state: Value, args: Value)
    requires IsLeaf(p)
    ensures Eval(lib, p, state, args) == Eval(lib, Substituted(p, args), state, Null)
  {
    hide HoldsLeaf, EvalMatches, EvalAll, EvalAny, SubstitutedList, Negation, Implication;
    if !p.Matches? {
      LeafHoldsSubstituted(lib, p, state, args);
    }
  }

  lemma LeafHoldsSubstituted(lib: Library, p: Predicate, state: Value, args: Value)
    requires IsLeaf(p) && !p.Matches?
    ensures var q := Substituted(p, args);
            IsLeaf(q) && !q.Matches? && HoldsLeaf(lib, p, state, args) == HoldsLeaf(lib, q, state, Null)
  {
    hide HoldsContains, HoldsGreater, HoldsLess, HoldsEmpty, SizeOf, Compare, ResolveValue, GetPath;
    if p.Equals? || p.NotEquals? || p.Contains? || p.GreaterThan? || p.LessThan? {
      NullArgumentsResolveNothing(ResolveValue(p.value, args));
    }
  }

  lemma {:induction false} SubstitutionCommutesWithLists(lib: Library, ps: seq<Predicate>, state: Value, args: Value)
    ensures EvalAll(lib, ps, state, args) == EvalAll(lib, SubstitutedList(ps, args), state, Null)
    ensures EvalAny(lib, ps, state, args) == EvalAny(lib, SubstitutedList(ps, args), state, Null)
    decreases ps, 0
  {
    if ps != [] {
      SubstitutionCommutesWithEvaluation(lib, ps[0], state, args);
      SubstitutionCommutesWithLists(lib, ps[1..], state, args);
      assert SubstitutedList(ps, args)[1..] == SubstitutedList(ps[1..], args);
    }
  }
}
