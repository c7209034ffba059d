/**
 * The circuit breaker (crates/agentverify-recovery/src/lib.rs). Each of its methods is one atomic
 * step; a clock reading is an integer, and so is the recovery timeout.
 */
module Breakers {
  import opened Common

  datatype Config = Config(failureThreshold: nat, successThreshold: nat, recoveryTimeout: int)

  datatype CircuitState = Closed | Open | HalfOpen

  datatype Breaker = Breaker(state: CircuitState, failures: nat, successes: nat, lastFailure: Option<int>)

  const NEW: Breaker := Breaker(Closed, 0, 0, None)

  function RecordFailure(c: Config, b: Breaker, now: int): Breaker {
    var noted := b.(lastFailure := Some(now));
    match b.state
    case Closed =>
      noted.(failures := b.failures + 1, state := if b.failures + 1 >= c.failureThreshold then Open else Closed)
    case HalfOpen => noted.(state := Open, successes := 0)
    case Open => noted
  }

  function RecordSuccess(c: Config, b: Breaker): Breaker {
    match b.state
    case Closed => b.(failures := 0)
    case HalfOpen =>
      if b.successes + 1 >= c.successThreshold then b.(state := Closed, failures := 0, successes := 0)
      else b.(successes := b.successes + 1)
    case Open => b
  }

  predicate TimedOut(c: Config, b: Breaker, now: int) {
    b.lastFailure.Some? && now - b.lastFailure.value >= c.recoveryTimeout
  }

  /** Asking for permission moves an open breaker to half-open once its timeout has passed. */
  function AfterAsking(c: Config, b: Breaker, now: int): Breaker {
    if b.state.Open? && TimedOut(c, b, now) then b.(state := HalfOpen) else b
  }

  predicate Allows(c: Config, b: Breaker, now: int) {
    !b.state.Open? || TimedOut(c, b, now)
  }

  class CircuitBreaker {
    const config: Config
    var state: CircuitState
    var failureCount: nat
    var successCount: nat
    var lastFailure: Option<int>

    constructor (config: Config)
      ensures this.config == config && Value() == NEW
    {
      this.config := config;
      state, failureCount, successCount, lastFailure := Closed, 0, 0, None;
    }

    function Value(): Breaker
      reads this
    {
      Breaker(state, failureCount, successCount, lastFailure)
    }

    method RecordFailureNow(now: int)
      modifies this
      ensures Value() == RecordFailure(config, old(Value()), now)
    {
      lastFailure := Some(now);
      match state
      case Closed =>
        failureCount := failureCount + 1;
        if failureCount >= config.failureThreshold {
          state := Open;
        }
      case HalfOpen =>
        state := Open;
        successCount := 0;
      case Open =>
    }

    method RecordSuccessNow()
      modifies this
      ensures Value() == RecordSuccess(config, old(Value()))
    {
      match state
      case Closed =>
        failureCount := 0;
      case HalfOpen =>
        successCount := successCount + 1;
        if successCount >= config.successThreshold {
          state := Closed;
          failureCount := 0;
          successCount := 0;
        }
      case Open =>
    }

    method IsAllowed(now: int) returns (allowed: bool)
      modifies this
      ensures allowed == Allows(config, old(Value()), now)
      ensures Value() == AfterAsking(config, old(Value()), now)
    {
      if state == Open {
        if lastFailure.Some? {
          if now - lastFailure.value >= config.recoveryTimeout {
            state := HalfOpen;
            return true;
          }
        }
        return false;
      }
      return true;
    }
  }

  /** One call of the breaker. */
  datatype Event = Failing(now: int) | Succeeding | Asking(now: int)

  function Step(c: Config, b: Breaker, e: Event): Breaker {
    match e
    case Failing(now) => RecordFailure(c, b, now)
    case Succeeding => RecordSuccess(c, b)
    case Asking(now) => AfterAsking(c, b, now)
  }

  function After(c: Config, events: seq<Event>): Breaker {
    if events == [] then NEW else Step(c, After(c, events[..|events| - 1]), events[|events| - 1])
  }

  /** A threshold of zero acts as one. */
  function AtLeastOne(n: nat): nat {
    Max(1, n)
  }

  predicate Consistent(c: Config, b: Breaker) {
    match b.state
    case Closed => b.failures < AtLeastOne(c.failureThreshold) && b.successes == 0
    case Open => b.failures == AtLeastOne(c.failureThreshold) && b.successes == 0 && b.lastFailure.Some?
    case HalfOpen =>
      b.failures == AtLeastOne(c.failureThreshold) && b.successes < AtLeastOne(c.successThreshold)
        && b.lastFailure.Some?
  }

  lemma StepKeepsConsistent(c: Config, b: Breaker, e: Event)
    requires Consistent(c, b)
    ensures Consistent(c, Step(c, b, e))
  {
  }

  /** The invariant holds after any calls whatever, for any thresholds. */
  lemma {:induction false} AlwaysConsistent(c: Config, events: seq<Event>)
    ensures Consistent(c, After(c, events))
  {
    if events != [] {
      AlwaysConsistent(c, events[..|events| - 1]);
      StepKeepsConsistent(c, After(c, events[..|events| - 1]), events[|events| - 1]);
    }
  }

  /** When the latest failure was recorded, whatever the state at the time. */
  function LatestFailure(events: seq<Event>): Option<int> {
    if events == [] then None
    else
      var n := |events| - 1;
      if events[n].Failing? then Some(events[n].now) else LatestFailure(events[..n])
  }

  /** Failures recorded since the last success. */
  function FailuresInARow(events: seq<Event>): nat {
    if events == [] then 0
    else
      var n := |events| - 1;
      match events[n]
      case Failing(_) => FailuresInARow(events[..n]) + 1
      case Succeeding => 0
      case Asking(_) => FailuresInARow(events[..n])
  }

  function Successes(events: seq<Event>): nat {
    if events == [] then 0
    else Successes(events[..|events| - 1]) + if events[|events| - 1].Succeeding? then 1 else 0
  }

  lemma {:induction false} HistoryIsKept(c: Config, events: seq<Event>)
    ensures After(c, events).lastFailure == LatestFailure(events)
    ensures After(c, events).state.Closed? ==> After(c, events).failures == FailuresInARow(events)
  {
    if events != [] {
      HistoryIsKept(c, events[..|events| - 1]);
    }
  }

  lemma AfterOneMore(c: Config, events: seq<Event>, e: Event)
    ensures After(c, events + [e]) == Step(c, After(c, events), e)
  {
    assert (events + [e])[..|events|] == events;
  }

  /** A closed breaker opens exactly on the failure that completes a row of threshold failures. */
  lemma {:induction false} OpensExactlyAtTheThreshold(c: Config, events: seq<Event>, e: Event)
    requires After(c, events).state.Closed?
    ensures !After(c, events + [e]).state.Closed? <==>
            e.Failing? && FailuresInARow(events + [e]) >= AtLeastOne(c.failureThreshold)
  {
    AfterOneMore(c, events, e);
    AlwaysConsistent(c, events);
    HistoryIsKept(c, events);
    assert (events + [e])[..|events|] == events;
  }

  /**
   * An open breaker leaves that state exactly when asked at least the recovery timeout after the
   * latest failure, those recorded while it was open included; and then it is half-open.
   */
  lemma {:induction false} HalfOpensExactlyAfterTheTimeout(c: Config, events: seq<Event>, e: Event)
    requires After(c, events).state.Open?
    ensures LatestFailure(events).Some?
    ensures After(c, events + [e]).state ==
            if e.Asking? && e.now - LatestFailure(events).value >= c.recoveryTimeout then HalfOpen else Open
    ensures e.Asking? ==>
              (Allows(c, After(c, events), e.now) <==> e.now - LatestFailure(events).value >= c.recoveryTimeout)
  {
    AfterOneMore(c, events, e);
    AlwaysConsistent(c, events);
    HistoryIsKept(c, events);
  }

  /** The breaker was let into half-open at `k`, and has been there since. */
  ghost predicate HalfOpenSince(c: Config, events: seq<Event>, k: nat) {
    && k < |events| && events[k].Asking?
    && After(c, events[..k]).state.Open?
    && (forall i :: k < i <= |events| ==> After(c, events[..i]).state.HalfOpen?)
    && (forall i :: k < i < |events| ==> !events[i].Failing?)
    && Successes(events[k + 1..]) == After(c, events).successes
  }

  lemma HalfOpenBegins(c: Config, events: seq<Event>, e: Event)
    requires After(c, events).state.Open? && After(c, events + [e]).state.HalfOpen?
    ensures HalfOpenSince(c, events + [e], |events|)
  {
    AfterOneMore(c, events, e);
    AlwaysConsistent(c, events);
    assert (events + [e])[..|events|] == events && (events + [e])[..|events| + 1] == events + [e];
  }

  lemma SuccessesOfOneMore(events: seq<Event>, e: Event, k: nat)
    requires k <= |events|
    ensures Successes((events + [e])[k..]) == Successes(events[k..]) + if e.Succeeding? then 1 else 0
  {
    assert (events + [e])[k..] == events[k..] + [e];
    assert (events[k..] + [e])[..|events| - k] == events[k..];
  }

  lemma HalfOpenContinues(c: Config, events: seq<Event>, e: Event, k: nat)
    requires HalfOpenSince(c, events, k) && After(c, events + [e]).state.HalfOpen?
    ensures HalfOpenSince(c, events + [e], k)
  {
    var all := events + [e];
    AfterOneMore(c, events, e);
    SuccessesOfOneMore(events, e, k + 1);
    assert events[..|events|] == events && all[..k] == events[..k];
    forall i | k < i <= |all| ensures After(c, all[..i]).state.HalfOpen? {
      assert all[..i] == if i == |all| then all else events[..i];
    }
    assert forall i :: k < i < |events| ==> all[i] == events[i];
  }

  lemma {:induction false} HalfOpenHasABeginning(c: Config, events: seq<Event>) returns (k: nat)
    requires After(c, events).state.HalfOpen?
    ensures HalfOpenSince(c, events, k)
  {
    var pre, e := events[..|events| - 1], events[|events| - 1];
    assert events == pre + [e];
    if After(c, pre).state.HalfOpen? {
      k := HalfOpenHasABeginning(c, pre);
      HalfOpenContinues(c, pre, e, k);
    } else {
      k := |pre|;
      HalfOpenBegins(c, pre, e);
    }
  }

  /**
   * A half-open breaker closes exactly on the success that completes a threshold of successes with no
   * failure among them since it became half-open; a failure opens it again at once.
   */
  lemma ClosesExactlyAtTheThreshold(c: Config, events: seq<Event>, e: Event) returns (k: nat)
    requires After(c, events).state.HalfOpen?
    ensures HalfOpenSince(c, events, k)
    ensures After(c, events + [e]).state.Closed? <==>
            e.Succeeding? && Successes(events[k + 1..]) + 1 >= AtLeastOne(c.successThreshold)
    ensures After(c, events + [e]).state.Open? <==> e.Failing?
  {
    k := HalfOpenHasABeginning(c, events);
    AfterOneMore(c, events, e);
  }

  /** Permission once given is given again at once: the second of two checks in a row never refuses. */
  lemma PermissionLasts(c: Config, b: Breaker, now: int, later: int)
    requires Allows(c, b, now)
    ensures Allows(c, AfterAsking(c, b, now), later)
            && AfterAsking(c, AfterAsking(c, b, now), later) == AfterAsking(c, b, now)
  {
  }

  /** The breaker after further calls. */
  function From(c: Config, b: Breaker, events: seq<Event>): Breaker {
    if events == [] then b else Step(c, From(c, b, events[..|events| - 1]), events[|events| - 1])
  }

  ghost predicate StaysHalfOpen(c: Config, b: Breaker, events: seq<Event>) {
    forall i :: 0 <= i <= |events| ==> From(c, b, events[..i]).state.HalfOpen?
  }

  /** No failure among the calls, and not enough successes to close a half-open breaker. */
  ghost predicate EndsNothing(c: Config, b: Breaker, events: seq<Event>) {
    && (forall i :: 0 <= i < |events| ==> !events[i].Failing?)
    && b.successes + Successes(events) < AtLeastOne(c.successThreshold)
  }

  lemma EndsNothingOfOneMore(c: Config, b: Breaker, events: seq<Event>, e: Event)
    ensures EndsNothing(c, b, events + [e]) <==>
            && EndsNothing(c, b, events) && !e.Failing?
            && b.successes + Successes(events) + (if e.Succeeding? then 1 else 0) < AtLeastOne(c.successThreshold)
  {
    var all := events + [e];
    assert all[..|events|] == events && all[|events|] == e;
    assert forall i :: 0 <= i < |events| ==> all[i] == events[i];
  }

  lemma StaysHalfOpenOfOneMore(c: Config, b: Breaker, events: seq<Event>, e: Event)
    ensures StaysHalfOpen(c, b, events + [e]) <==>
            StaysHalfOpen(c, b, events) && Step(c, From(c, b, events), e).state.HalfOpen?
  {
    var all := events + [e];
    assert all[..|events|] == events && all[..|all|] == all;
    assert forall i :: 0 <= i <= |events| ==> all[..i] == events[..i];
  }

  /**
   * A half-open breaker stays so exactly while no failure is recorded and the successes fall short of the
   * threshold.
   */
  lemma {:induction false} StaysHalfOpenIff(c: Config, b: Breaker, events: seq<Event>)
    requires b.state.HalfOpen? && Consistent(c, b)
    ensures StaysHalfOpen(c, b, events) <==> EndsNothing(c, b, events)
    ensures StaysHalfOpen(c, b, events) ==> From(c, b, events) == b.(successes := b.successes + Successes(events))
  {
    if events == [] {
      assert events[..0] == events;
    } else {
      hide StaysHalfOpen, EndsNothing;
      var n := |events| - 1;
      var pre, e := events[..n], events[n];
      StaysHalfOpenIff(c, b, pre);
      assert events == pre + [e];
      EndsNothingOfOneMore(c, b, pre, e);
      StaysHalfOpenOfOneMore(c, b, pre, e);
    }
  }

  /** Until then it admits every request, however many, and asking changes nothing. */
  lemma HalfOpenAdmitsAll(c: Config, b: Breaker, events: seq<Event>, i: nat)
    requires b.state.HalfOpen? && Consistent(c, b) && EndsNothing(c, b, events) && i < |events| && events[i].Asking?
    ensures Allows(c, From(c, b, events[..i]), events[i].now)
    ensures From(c, b, events[..i + 1]) == From(c, b, events[..i])
  {
    hide EndsNothing;
    StaysHalfOpenIff(c, b, events);
    assert From(c, b, events[..i]).state.HalfOpen?;
    assert events[..i + 1][..i] == events[..i];
  }

  /** In particular any number of requests in a row. */
  lemma AnyNumberOfAsks(c: Config, b: Breaker, asks: seq<Event>)
    requires b.state.HalfOpen? && Consistent(c, b) && forall i :: 0 <= i < |asks| ==> asks[i].Asking?
    ensures From(c, b, asks) == b
    ensures forall i :: 0 <= i < |asks| ==> Allows(c, From(c, b, asks[..i]), asks[i].now)
  {
    NoSuccesses(asks);
    StaysHalfOpenIff(c, b, asks);
    forall i: nat | i < |asks| ensures Allows(c, From(c, b, asks[..i]), asks[i].now) {
      HalfOpenAdmitsAll(c, b, asks, i);
    }
  }

  lemma {:induction false} NoSuccesses(events: seq<Event>)
    requires forall i :: 0 <= i < |events| ==> events[i].Asking?
    ensures Successes(events) == 0
  {
    if events != [] {
      NoSuccesses(events[..|events| - 1]);
    }
  }
}
