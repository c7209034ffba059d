/**
 * Contracts and the two checks made against them: preconditions on the state before dispatch,
 * postconditions on the state after it (crates/agentverify-runtime/src/executor.rs).
 */
module Contracts {
  import opened Common
  import opened Json
  import opened Verdicts
  import opened Predicates
  import PredicateEngine

  datatype Precondition = Precondition(condition: Predicate, description: string)

  datatype Postcondition = Postcondition(condition: Predicate, description: string, mandatory: bool)

  datatype RecoveryStrategy =
    | NoAction | Retry | VerifyThenRetry | Poll | Compensate | Rollback | Escalate | HumanApproval | Abort

  datatype BackoffType = Linear | Exponential

  datatype BackoffConfig = BackoffConfig(kind: BackoffType, initial: nat, max: nat, multiplier: real)

  datatype RecoveryConfig = RecoveryConfig(strategy: RecoveryStrategy, maxAttempts: nat, backoff: Option<BackoffConfig>)

  datatype Contract = Contract(
    preconditions: seq<Precondition>,
    postconditions: seq<Postcondition>,
    recovery: Option<RecoveryConfig>
  )

  datatype Observation = Observation(source: string, state: Value)

  /** Evidence recorded for one postcondition; `error` holds an indeterminate verdict. */
  datatype Detail = Detail(condition: Predicate, description: string, passed: bool, error: Option<Verdict>)

  datatype Evaluation = Evaluation(result: Verdict, details: seq<Detail>)

  datatype PreconditionError = MissingPreState | Unsatisfied(description: string) | Unevaluable(e: RegexError)

  /** Does a predicate verify on a state? */
  predicate Verifies(lib: Library, p: Predicate, state: Value, args: Value) {
    Eval(lib, p, state, args) == Ok(Verified)
  }

  /** The first precondition that does not verify, if any. */
  function CheckPreconditions(lib: Library, pres: seq<Precondition>, state: Value, args: Value)
    : Result<(), PreconditionError>
  {
    if pres == [] then Ok(())
    else
      match Eval(lib, pres[0].condition, state, args)
      case Err(e) => Err(Unevaluable(e))
      case Ok(v) =>
        if v.Verified? then CheckPreconditions(lib, pres[1..], state, args)
        else Err(Unsatisfied(pres[0].description))
  }

  /** Fail-closed: preconditions that cannot be checked do not hold. */
  function ValidatePreconditions(lib: Library, c: Contract, state: Option<Value>, args: Value)
    : Result<(), PreconditionError>
  {
    if c.preconditions == [] then Ok(())
    else
      match state
      case None => Err(MissingPreState)
      case Some(s) => CheckPreconditions(lib, c.preconditions, s, args)
  }

  lemma {:induction false} PreconditionsAllVerify(lib: Library, pres: seq<Precondition>, state: Value, args: Value)
    ensures CheckPreconditions(lib, pres, state, args).Ok? <==>
            forall i :: 0 <= i < |pres| ==> Verifies(lib, pres[i].condition, state, args)
  {
    if pres != [] {
      PreconditionsAllVerify(lib, pres[1..], state, args);
      assert forall i :: 0 < i < |pres| ==> pres[i] == pres[1..][i - 1];
      assert forall i :: 0 <= i < |pres[1..]| ==> pres[1..][i] == pres[i + 1];
    }
  }

  /** The precondition at `j` is the first that does not verify, and this is what is said of it. */
  ghost predicate FirstUnmet(
    lib: Library, pres: seq<Precondition>, state: Value, args: Value, j: int, error: PreconditionError)
  {
    && 0 <= j < |pres|
    && (forall i :: 0 <= i < j ==> Verifies(lib, pres[i].condition, state, args))
    && match Eval(lib, pres[j].condition, state, args)
       case Ok(v) => v != Verified && error == Unsatisfied(pres[j].description)
       case Err(e) => error == Unevaluable(e)
  }

  lemma FirstUnmetOfCons(
    lib: Library, pres: seq<Precondition>, state: Value, args: Value, j: int, error: PreconditionError)
    requires pres != [] && Verifies(lib, pres[0].condition, state, args)
    ensures FirstUnmet(lib, pres, state, args, j, error) <==> FirstUnmet(lib, pres[1..], state, args, j - 1, error)
  {
    hide Eval;
    var rest := pres[1..];
    assert forall i :: 0 < i < |pres| ==> pres[i] == rest[i - 1];
    assert forall i :: 0 <= i < |rest| ==> rest[i] == pres[i + 1];
  }

  /** The error of a check is that of the first precondition that does not verify. */
  lemma {:induction false} FirstUnmetIsReported(
    lib: Library, pres: seq<Precondition>, state: Value, args: Value, error: PreconditionError)
    ensures CheckPreconditions(lib, pres, state, args) == Err(error) <==>
            exists j :: FirstUnmet(lib, pres, state, args, j, error)
  {
    hide Eval;
    if pres != [] {
      if Verifies(lib, pres[0].condition, state, args) {
        var rest := pres[1..];
        FirstUnmetIsReported(lib, rest, state, args, error);
        forall j ensures FirstUnmet(lib, pres, state, args, j, error) <==>
                         FirstUnmet(lib, rest, state, args, j - 1, error) {
          FirstUnmetOfCons(lib, pres, state, args, j, error);
        }
        hide FirstUnmet;
        if j :| FirstUnmet(lib, rest, state, args, j, error) {
          assert FirstUnmet(lib, pres, state, args, j + 1, error);
        }
      } else if CheckPreconditions(lib, pres, state, args) == Err(error) {
        assert FirstUnmet(lib, pres, state, args, 0, error);
      }
    }
  }

  method CheckAllPreconditions(lib: Library, c: Contract, state: Option<Value>, args: Value)
    returns (r: Result<(), PreconditionError>)
    ensures r == ValidatePreconditions(lib, c, state, args)
  {
    var pres := c.preconditions;
    if pres == [] {
      return Ok(());
    }
    if state.None? {
      return Err(MissingPreState);
    }
    for i := 0 to |pres|
      invariant CheckPreconditions(lib, pres[i..], state.value, args)
             == CheckPreconditions(lib, pres, state.value, args)
    {
      assert pres[i..][1..] == pres[i + 1..];
      var engine := new PredicateEngine.Engine(lib);
      var result := engine.Evaluate(pres[i].condition, state.value, args);
      if result.Err? {
        return Err(Unevaluable(result.error));
      }
      if !result.value.Verified? {
        return Err(Unsatisfied(pres[i].description));
      }
    }
    return Ok(());
  }

  /** The loop over the postconditions, with its accumulated flags and evidence. */
  function Accumulate(lib: Library, posts: seq<Postcondition>, state: Value, args: Value,
                      allPassed: bool, mandatoryFailed: bool, details: seq<Detail>): Result<Evaluation, RegexError>
  {
    if posts == [] then
      Ok(Evaluation(if allPassed then Verified else if mandatoryFailed then Failed else Partial, details))
    else
      var p := posts[0];
      match Eval(lib, p.condition, state, args)
      case Err(e) => Err(e)
      case Ok(v) =>
        if v.Verified? then
          Accumulate(lib, posts[1..], state, args, allPassed, mandatoryFailed,
                     details + [Detail(p.condition, p.description, true, None)])
        else if v.Failed? then
          Accumulate(lib, posts[1..], state, args, false, mandatoryFailed || p.mandatory,
                     details + [Detail(p.condition, p.description, false, None)])
        else
          Ok(Evaluation(v, details + [Detail(p.condition, p.description, false, Some(v))]))
  }

  function VerifyPostconditions(lib: Library, c: Contract, state: Value, args: Value): Result<Evaluation, RegexError> {
    Accumulate(lib, c.postconditions, state, args, true, false, [])
  }

  method EvaluatePostconditions(lib: Library, c: Contract, state: Value, args: Value)
    returns (r: Result<Evaluation, RegexError>)
    ensures r == VerifyPostconditions(lib, c, state, args)
  {
    var posts := c.postconditions;
    var allPassed, mandatoryFailed, details := true, false, [];
    for i := 0 to |posts|
      invariant Accumulate(lib, posts[i..], state, args, allPassed, mandatoryFailed, details)
             == VerifyPostconditions(lib, c, state, args)
    {
      assert posts[i..][1..] == posts[i + 1..];
      var p := posts[i];
      var engine := new PredicateEngine.Engine(lib);
      var result := engine.Evaluate(p.condition, state, args);
      if result.Err? {
        return Err(result.error);
      }
      var v := result.value;
      if v.Verified? {
        details := details + [Detail(p.condition, p.description, true, None)];
      } else if v.Failed? {
        if p.mandatory {
          mandatoryFailed := true;
        }
        allPassed := false;
        details := details + [Detail(p.condition, p.description, false, None)];
      } else {
        details := details + [Detail(p.condition, p.description, false, Some(v))];
        return Ok(Evaluation(v, details));
      }
    }
    return Ok(Evaluation(if allPassed then Verified else if mandatoryFailed then Failed else Partial, details));
  }

  /** The evidence for one postcondition on one state. */
  function Evidence(lib: Library, p: Postcondition, state: Value, args: Value): Detail {
    Detail(p.condition, p.description, Verifies(lib, p.condition, state, args), None)
  }

  ghost predicate IsEvidence(lib: Library, posts: seq<Postcondition>, state: Value, args: Value, details: seq<Detail>) {
    && |details| == |posts|
    && forall i :: 0 <= i < |posts| ==> details[i] == Evidence(lib, posts[i], state, args)
  }

  predicate NoneFails(lib: Library, posts: seq<Postcondition>, state: Value, args: Value) {
    forall i :: 0 <= i < |posts| ==> Verifies(lib, posts[i].condition, state, args)
  }

  predicate MandatoryFails(lib: Library, posts: seq<Postcondition>, state: Value, args: Value) {
    exists i :: 0 <= i < |posts| && posts[i].mandatory && !Verifies(lib, posts[i].condition, state, args)
  }

  lemma FailuresOfCons(lib: Library, posts: seq<Postcondition>, state: Value, args: Value)
    requires posts != []
    ensures var passed := Verifies(lib, posts[0].condition, state, args);
            && (NoneFails(lib, posts, state, args) <==> passed && NoneFails(lib, posts[1..], state, args))
            && (MandatoryFails(lib, posts, state, args) <==>
                  (!passed && posts[0].mandatory) || MandatoryFails(lib, posts[1..], state, args))
  {
    var rest := posts[1..];
    if MandatoryFails(lib, posts, state, args) {
      var i :| 0 <= i < |posts| && posts[i].mandatory && !Verifies(lib, posts[i].condition, state, args);
      assert i > 0 ==> rest[i - 1] == posts[i];
    }
    if MandatoryFails(lib, rest, state, args) {
      var i :| 0 <= i < |rest| && rest[i].mandatory && !Verifies(lib, rest[i].condition, state, args);
      assert rest[i] == posts[i + 1];
    }
    NoFailuresOfCons(lib, posts, state, args);
  }

  lemma NoFailuresOfCons(lib: Library, posts: seq<Postcondition>, state: Value, args: Value)
    requires posts != []
    ensures NoneFails(lib, posts, state, args) <==>
            Verifies(lib, posts[0].condition, state, args) && NoneFails(lib, posts[1..], state, args)
  {
    var rest := posts[1..];
    if !NoneFails(lib, posts, state, args) {
      var i :| 0 <= i < |posts| && !Verifies(lib, posts[i].condition, state, args);
      assert i > 0 ==> rest[i - 1] == posts[i];
    }
    if !NoneFails(lib, rest, state, args) {
      var i :| 0 <= i < |rest| && !Verifies(lib, rest[i].condition, state, args);
      assert rest[i] == posts[i + 1];
    }
  }

  /** One turn of the loop, with the indeterminate branch gone. */
  lemma AccumulateStep(lib: Library, posts: seq<Postcondition>, state: Value, args: Value,
                       allPassed: bool, mandatoryFailed: bool, details: seq<Detail>)
    requires posts != [] && Eval(lib, posts[0].condition, state, args).Ok?
    ensures var passed := Verifies(lib, posts[0].condition, state, args);
            Accumulate(lib, posts, state, args, allPassed, mandatoryFailed, details) ==
            Accumulate(lib, posts[1..], state, args, allPassed && passed,
                       mandatoryFailed || (!passed && posts[0].mandatory),
                       details + [Evidence(lib, posts[0], state, args)])
  {
    EvaluationIsSettled(lib, posts[0].condition, state, args);
  }

  lemma {:induction false} AccumulatedVerdict(lib: Library, posts: seq<Postcondition>, state: Value, args: Value,
                                              allPassed: bool, mandatoryFailed: bool, details: seq<Detail>)
    ensures var r := Accumulate(lib, posts, state, args, allPassed, mandatoryFailed, details);
            r.Ok? ==>
              r.value.result == (if allPassed && NoneFails(lib, posts, state, args) then Verified
                                 else if mandatoryFailed || MandatoryFails(lib, posts, state, args) then Failed
                                 else Partial)
    decreases |posts|
  {
    if posts != [] && Eval(lib, posts[0].condition, state, args).Ok? {
      var passed := Verifies(lib, posts[0].condition, state, args);
      AccumulateStep(lib, posts, state, args, allPassed, mandatoryFailed, details);
      FailuresOfCons(lib, posts, state, args);
      AccumulatedVerdict(lib, posts[1..], state, args, allPassed && passed,
                         mandatoryFailed || (!passed && posts[0].mandatory),
                         details + [Evidence(lib, posts[0], state, args)]);
    }
  }

  lemma {:induction false} AccumulatedEvidence(
    lib: Library, posts: seq<Postcondition>, done: nat, state: Value, args: Value,
    allPassed: bool, mandatoryFailed: bool, details: seq<Detail>)
    requires done <= |posts| && IsEvidence(lib, posts[..done], state, args, details)
    ensures var r := Accumulate(lib, posts[done..], state, args, allPassed, mandatoryFailed, details);
            r.Ok? ==> IsEvidence(lib, posts, state, args, r.value.details)
    decreases |posts| - done
  {
    if done == |posts| {
      assert posts[..done] == posts;
    } else if Eval(lib, posts[done].condition, state, args).Ok? {
      var passed := Verifies(lib, posts[done].condition, state, args);
      AccumulateStep(lib, posts[done..], state, args, allPassed, mandatoryFailed, details);
      assert posts[done..][1..] == posts[done + 1..];
      AccumulatedEvidence(lib, posts, done + 1, state, args, allPassed && passed,
                          mandatoryFailed || (!passed && posts[done].mandatory),
                          details + [Evidence(lib, posts[done], state, args)]);
    }
  }

  /**
   * What a postcondition check concludes. The verdict is `Verified` iff no postcondition fails,
   * `Failed` iff a mandatory one fails and `Partial` iff some fail and all of those are optional;
   * it is never `Unknown` or `Duplicate`. The evidence lists every postcondition, in order.
   */
  lemma PostconditionVerdict(lib: Library, c: Contract, state: Value, args: Value)
    ensures var r := VerifyPostconditions(lib, c, state, args);
            r.Ok? ==>
              && IsEvidence(lib, c.postconditions, state, args, r.value.details)
              && (r.value.result.Verified? <==> NoneFails(lib, c.postconditions, state, args))
              && (r.value.result.Failed? <==> MandatoryFails(lib, c.postconditions, state, args))
              && (r.value.result.Partial? <==>
                    && !NoneFails(lib, c.postconditions, state, args)
                    && !MandatoryFails(lib, c.postconditions, state, args))
              && !r.value.result.Unknown? && !r.value.result.Duplicate?
  {
    AccumulatedVerdict(lib, c.postconditions, state, args, true, false, []);
    AccumulatedEvidence(lib, c.postconditions, 0, state, args, true, false, []);
    assert c.postconditions[0..] == c.postconditions;
    var r := VerifyPostconditions(lib, c, state, args);
    if r.Ok? {
      if MandatoryFails(lib, c.postconditions, state, args) {
        assert !NoneFails(lib, c.postconditions, state, args);
      }
    }
  }

  /** The postcondition at `j` is the first that cannot be evaluated. */
  ghost predicate FirstUnevaluable(
    lib: Library, posts: seq<Postcondition>, state: Value, args: Value, j: int, error: RegexError)
  {
    && 0 <= j < |posts| && Eval(lib, posts[j].condition, state, args) == Err(error)
    && forall i :: 0 <= i < j ==> Eval(lib, posts[i].condition, state, args).Ok?
  }

  lemma FirstUnevaluableOfCons(
    lib: Library, posts: seq<Postcondition>, state: Value, args: Value, j: int, error: RegexError)
    requires posts != [] && Eval(lib, posts[0].condition, state, args).Ok?
    ensures FirstUnevaluable(lib, posts, state, args, j, error) <==>
            FirstUnevaluable(lib, posts[1..], state, args, j - 1, error)
  {
    hide Eval;
    var rest := posts[1..];
    assert forall i :: 0 < i < |posts| ==> posts[i] == rest[i - 1];
    assert forall i :: 0 <= i < |rest| ==> rest[i] == posts[i + 1];
  }

  /** The error of a check is that of the first postcondition that cannot be evaluated. */
  lemma {:induction false} FirstUnevaluableIsReported(
    lib: Library, posts: seq<Postcondition>, state: Value, args: Value, allPassed: bool, mandatoryFailed: bool,
    details: seq<Detail>, error: RegexError)
    ensures Accumulate(lib, posts, state, args, allPassed, mandatoryFailed, details) == Err(error) <==>
            exists j :: FirstUnevaluable(lib, posts, state, args, j, error)
  {
    hide Eval;
    if posts != [] {
      if Eval(lib, posts[0].condition, state, args).Ok? {
        var passed, rest := Verifies(lib, posts[0].condition, state, args), posts[1..];
        AccumulateStep(lib, posts, state, args, allPassed, mandatoryFailed, details);
        FirstUnevaluableIsReported(lib, rest, state, args, allPassed && passed,
                                   mandatoryFailed || (!passed && posts[0].mandatory),
                                   details + [Evidence(lib, posts[0], state, args)], error);
        forall j ensures FirstUnevaluable(lib, posts, state, args, j, error) <==>
                         FirstUnevaluable(lib, rest, state, args, j - 1, error) {
          FirstUnevaluableOfCons(lib, posts, state, args, j, error);
        }
        hide FirstUnevaluable;
        if j :| FirstUnevaluable(lib, rest, state, args, j, error) {
          assert FirstUnevaluable(lib, posts, state, args, j + 1, error);
        }
      } else if Eval(lib, posts[0].condition, state, args) == Err(error) {
        assert FirstUnevaluable(lib, posts, state, args, 0, error);
      }
    }
  }

  /** A check answers, rather than errs, exactly when every postcondition can be evaluated. */
  lemma {:induction false} PostconditionsAnswer(lib: Library, posts: seq<Postcondition>, state: Value, args: Value,
                                                allPassed: bool, mandatoryFailed: bool, details: seq<Detail>)
    ensures Accumulate(lib, posts, state, args, allPassed, mandatoryFailed, details).Ok? <==>
            forall i :: 0 <= i < |posts| ==> Eval(lib, posts[i].condition, state, args).Ok?
  {
    if posts != [] {
      var p, rest := posts[0], posts[1..];
      assert forall i :: 0 < i < |posts| ==> posts[i] == rest[i - 1];
      assert forall i :: 0 <= i < |rest| ==> rest[i] == posts[i + 1];
      if Eval(lib, p.condition, state, args).Ok? {
        var passed := Verifies(lib, p.condition, state, args);
        AccumulateStep(lib, posts, state, args, allPassed, mandatoryFailed, details);
        PostconditionsAnswer(lib, rest, state, args, allPassed && passed, mandatoryFailed || (!passed && p.mandatory),
                             details + [Evidence(lib, p, state, args)]);
      }
    }
  }
}
