/** The action lifecycle state machine (crates/agentverify-core/src/state_machine.rs). */
module Lifecycle {
  import opened Common

  datatype State =
    | Proposed | Validating | Rejected | Authorized | Executing | Executed
    | Failed | Timeout | Unknown | Observing | Verifying | Verified
    | VerificationFailed | Recovering | Recovered | Escalated | Committed

  datatype StateError =
    | InvalidTransition(from: State, to: State)
    | TerminalState(at: State)

  predicate IsTerminal(s: State) {
    s.Committed? || s.Rejected? || s.Escalated? || s.VerificationFailed?
  }

  /** The listed successors. `VerificationFailed` lists `Recovering` although it is terminal. */
  function ValidTransitions(s: State): seq<State> {
    match s
    case Proposed => [Validating]
    case Validating => [Authorized, Rejected]
    case Authorized => [Executing]
    case Executing => [Executed, Failed, Timeout, Unknown]
    case Executed | Timeout | Unknown => [Observing]
    case Failed | Observing | Recovered => [Verifying]
    case Verifying => [Verified, VerificationFailed]
    case Verified => [Committed]
    case VerificationFailed => [Recovering]
    case Recovering => [Recovered, Escalated]
    case Rejected | Escalated | Committed => []
  }

  function Transition(s: State, next: State): (r: Result<State, StateError>)
    ensures r.Ok? ==> r.value == next && Rank(next) < Rank(s)
    ensures r == Err(TerminalState(s)) <==> Rank(s) == 0
  {
    if IsTerminal(s) then Err(TerminalState(s))
    else if next in ValidTransitions(s) then Ok(next)
    else Err(InvalidTransition(s, next))
  }

  /** The steps that are taken, pair by pair. */
  predicate Edge(s: State, next: State) {
    || (s == Proposed && next == Validating)
    || (s == Validating && (next == Authorized || next == Rejected))
    || (s == Authorized && next == Executing)
    || (s == Executing && (next == Executed || next == Failed || next == Timeout || next == Unknown))
    || ((s == Executed || s == Timeout || s == Unknown) && next == Observing)
    || ((s == Failed || s == Observing || s == Recovered) && next == Verifying)
    || (s == Verifying && (next == Verified || next == VerificationFailed))
    || (s == Verified && next == Committed)
    || (s == Recovering && (next == Recovered || next == Escalated))
  }

  /** The states that have no step are those that refuse as terminal; any other refuses by naming both states. */
  lemma TransitionIff(s: State, next: State)
    ensures Transition(s, next) ==
            if Edge(s, next) then Ok(next)
            else if exists other :: Edge(s, other) then Err(InvalidTransition(s, next))
            else Err(TerminalState(s))
  {
    if IsTerminal(s) {
      forall other ensures !Edge(s, other) {
        TerminalHasNoEdge(s, other);
      }
    } else {
      var other := ValidTransitions(s)[0];
      EdgeIff(s, next);
      EdgeIff(s, other);
      assert Edge(s, other);
    }
    hide Edge;
  }

  lemma TerminalHasNoEdge(s: State, next: State)
    requires IsTerminal(s)
    ensures !Edge(s, next)
  {
    hide ValidTransitions;
  }

  lemma EdgeIff(s: State, next: State)
    requires !IsTerminal(s)
    ensures Edge(s, next) <==> next in ValidTransitions(s)
  {
  }

  /** How many accepted transitions can still follow; it falls at every accepted one. */
  function Rank(s: State): (r: nat)
    ensures r <= 8
  {
    match s
    case Proposed => 8
    case Validating => 7
    case Authorized => 6
    case Executing => 5
    case Executed | Timeout | Unknown | Recovering => 4
    case Failed | Observing | Recovered => 3
    case Verifying => 2
    case Verified => 1
    case Rejected | Escalated | Committed | VerificationFailed => 0
  }

  class StateMachine {
    var state: State

    constructor ()
      ensures state == Proposed
    {
      state := Proposed;
    }

    constructor WithState(s: State)
      ensures state == s
    {
      state := s;
    }

    /** A refused transition leaves the state as it was. */
    method Advance(next: State) returns (r: Result<State, StateError>)
      modifies this
      ensures r == Transition(old(state), next)
      ensures state == if r.Ok? then next else old(state)
      ensures r.Ok? ==> Rank(state) < old(Rank(state))
    {
      r := Transition(state, next);
      if r.Ok? {
        state := r.value;
      }
    }
  }

  /** How many of a list of `advance` calls succeed when made one after another from `s`. */
  function Successes(s: State, requests: seq<State>): nat
    decreases |requests|
  {
    if requests == [] then 0
    else
      match Transition(s, requests[0])
      case Ok(n) => 1 + Successes(n, requests[1..])
      case Err(_) => Successes(s, requests[1..])
  }

  /** Whatever is asked of it, from whatever start, a machine accepts at most eight transitions. */
  lemma {:induction false} AtMostEightAdvances(s: State, requests: seq<State>)
    ensures Successes(s, requests) <= Rank(s) <= 8
    decreases |requests|
  {
    if requests != [] {
      var r := Transition(s, requests[0]);
      AtMostEightAdvances(if r.Ok? then r.value else s, requests[1..]);
    }
  }

  /** The states a machine passes through when every step is accepted. */
  ghost predicate IsPath(path: seq<State>) {
    && path != []
    && forall i :: 0 < i < |path| ==> Transition(path[i - 1], path[i]) == Ok(path[i])
  }

  predicate IsRecoveryState(s: State) {
    s.Recovering? || s.Recovered? || s.Escalated?
  }

  lemma {:induction false} RecoveryIsUnreachable(path: seq<State>, i: nat)
    requires IsPath(path) && path[0] == Proposed && i < |path|
    ensures !IsRecoveryState(path[i])
  {
    if i > 0 {
      RecoveryIsUnreachable(path, i - 1);
      assert Transition(path[i - 1], path[i]) == Ok(path[i]);
    }
  }

  /**
   * A machine that started in `Proposed` commits only after it executed, verified its
   * postconditions and found them verified, in that order; it never visits a recovery state.
   */
  lemma {:induction false} CommitsOnlyThroughVerification(path: seq<State>)
    requires IsPath(path) && path[0] == Proposed && path[|path| - 1] == Committed
    ensures forall i :: 0 <= i < |path| ==> !IsRecoveryState(path[i])
    ensures exists e :: 0 < e < |path| - 3 && path[e] == Executing
    ensures |path| >= 4 && path[|path| - 3] == Verifying && path[|path| - 2] == Verified
  {
    forall i | 0 <= i < |path| ensures !IsRecoveryState(path[i]) {
      RecoveryIsUnreachable(path, i);
    }
    var n := |path| - 1;
    assert path[n - 1] == Verified by { assert Transition(path[n - 1], path[n]) == Ok(path[n]); }
    assert path[n - 2] == Verifying by { assert Transition(path[n - 2], path[n - 1]) == Ok(path[n - 1]); }
    assert path[n - 3].Failed? || path[n - 3].Observing? by {
      assert Transition(path[n - 3], path[n - 2]) == Ok(path[n - 2]);
    }
    assert Transition(path[n - 4], path[n - 3]) == Ok(path[n - 3]);
    if path[n - 3].Failed? {
      assert path[n - 4] == Executing;
    } else {
      assert Transition(path[n - 5], path[n - 4]) == Ok(path[n - 4]);
      assert path[n - 5] == Executing;
    }
  }
}
