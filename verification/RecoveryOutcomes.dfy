/** What each kind of recovery strategy, and a whole recovery, comes to (crates/agentverify-recovery/src/lib.rs). */
module RecoveryOutcomes {
  import opened Common
  import opened Breakers
  import opened Recovery

  /** A timed call whose answer came in time passes it on; a later one is abandoned for a timeout. */
  lemma TimedReads(env: Environment, w: World, duration: nat)
    ensures var r, reply := Run(env, w, Timed(duration)), env.reply(|w.calls|);
            && r.world == w.(calls := w.calls + [if reply.took <= duration then Answered(reply.answer) else Abandoned])
            && r.outcome ==
               if reply.took > duration then Failure(Timeout(duration))
               else if reply.answer.Ok? then Success(reply.answer.value)
               else Failure(reply.answer.error)
  {
  }

  /** The world after the first strategies of a list, each run whatever the ones before came to. */
  function AfterFirst(env: Environment, w: World, strategies: seq<Strategy>, n: nat): World
    requires n <= |strategies|
  {
    if n == 0 then w else Run(env, AfterFirst(env, w, strategies, n - 1), strategies[n - 1]).world
  }

  /** What the strategy at `k` comes to when it is its turn. */
  function TurnOf(env: Environment, w: World, strategies: seq<Strategy>, k: nat): Ran
    requires k < |strategies|
  {
    Run(env, AfterFirst(env, w, strategies, k), strategies[k])
  }

  lemma {:induction false} AfterFirstOfRest(env: Environment, w: World, strategies: seq<Strategy>, n: nat)
    requires 1 <= n <= |strategies|
    ensures AfterFirst(env, w, strategies, n) ==
            AfterFirst(env, Run(env, w, strategies[0]).world, strategies[1..], n - 1)
  {
    hide Run;
    if n > 1 {
      AfterFirstOfRest(env, w, strategies, n - 1);
      assert strategies[n - 1] == strategies[1..][n - 2];
    } else {
      assert AfterFirst(env, w, strategies, 0) == w;
    }
  }

  /** None of the first strategies succeeds at its turn. */
  ghost predicate NoneSucceeds(env: Environment, w: World, strategies: seq<Strategy>, n: nat) {
    n <= |strategies| && forall k: nat :: k < n ==> !TurnOf(env, w, strategies, k).outcome.Success?
  }

  lemma NoneSucceedsOfRest(env: Environment, w: World, strategies: seq<Strategy>, n: nat)
    requires NoneSucceeds(env, w, strategies, n) && n >= 1
    ensures !Run(env, w, strategies[0]).outcome.Success?
    ensures NoneSucceeds(env, Run(env, w, strategies[0]).world, strategies[1..], n - 1)
  {
    hide Run;
    assert TurnOf(env, w, strategies, 0) == Run(env, w, strategies[0]);
    forall k: nat | k < n - 1
      ensures !TurnOf(env, Run(env, w, strategies[0]).world, strategies[1..], k).outcome.Success? {
      AfterFirstOfRest(env, w, strategies, k + 1);
      assert strategies[1..][k] == strategies[k + 1];
      assert !TurnOf(env, w, strategies, k + 1).outcome.Success?;
    }
  }

  /** A list comes to what its first success comes to, and nothing after it is run. */
  lemma {:induction false} ChainStopsAtSuccess(
    env: Environment, w: World, strategies: seq<Strategy>, otherwise: Outcome, k: nat)
    requires k < |strategies| && NoneSucceeds(env, w, strategies, k)
    requires TurnOf(env, w, strategies, k).outcome.Success?
    ensures RunChain(env, w, strategies, otherwise) == TurnOf(env, w, strategies, k)
    decreases k
  {
    hide Run, NoneSucceeds;
    if k > 0 {
      NoneSucceedsOfRest(env, w, strategies, k);
      AfterFirstOfRest(env, w, strategies, k);
      assert strategies[1..][k - 1] == strategies[k];
      ChainStopsAtSuccess(env, Run(env, w, strategies[0]).world, strategies[1..], otherwise, k - 1);
    } else {
      assert AfterFirst(env, w, strategies, 0) == w;
    }
  }

  /** If none succeeds, all are run, and the outcome is the one given for that. */
  lemma {:induction false} ChainRunsOut(env: Environment, w: World, strategies: seq<Strategy>, otherwise: Outcome)
    requires NoneSucceeds(env, w, strategies, |strategies|)
    ensures RunChain(env, w, strategies, otherwise) ==
            Ran(AfterFirst(env, w, strategies, |strategies|), otherwise)
    decreases |strategies|
  {
    hide Run, NoneSucceeds;
    if strategies != [] {
      NoneSucceedsOfRest(env, w, strategies, |strategies|);
      AfterFirstOfRest(env, w, strategies, |strategies|);
      ChainRunsOut(env, Run(env, w, strategies[0]).world, strategies[1..], otherwise);
    }
  }

  /** Composites that find no success say that their one attempt is used up; fallbacks alone do nothing. */
  lemma CompositeReads(env: Environment, w: World, strategies: seq<Strategy>)
    ensures Run(env, w, Fallback) == Ran(w, Failure(AllFallbacksExhausted))
    ensures NoneSucceeds(env, w, strategies, |strategies|) ==>
              Run(env, w, Composite(strategies)) ==
              Ran(AfterFirst(env, w, strategies, |strategies|), Failure(MaxAttemptsExceeded(1)))
    ensures forall k: nat :: k < |strategies| && NoneSucceeds(env, w, strategies, k)
                             && TurnOf(env, w, strategies, k).outcome.Success? ==>
              Run(env, w, Composite(strategies)) == TurnOf(env, w, strategies, k)
  {
    hide NoneSucceeds, TurnOf, AfterFirst, RetryFrom, RunGuarded, RunTimed;
    var otherwise := Failure(MaxAttemptsExceeded(1));
    if NoneSucceeds(env, w, strategies, |strategies|) {
      ChainRunsOut(env, w, strategies, otherwise);
    }
    forall k: nat | k < |strategies| && NoneSucceeds(env, w, strategies, k)
                    && TurnOf(env, w, strategies, k).outcome.Success?
      ensures RunChain(env, w, strategies, otherwise) == TurnOf(env, w, strategies, k) {
      ChainStopsAtSuccess(env, w, strategies, otherwise, k);
    }
  }

  /** The gate keeps the fallbacks back: its breaker is open and its timeout has not passed. */
  predicate GateShut(env: Environment, w: World, gate: Option<nat>) {
    && gate.Some? && Current(w, gate.value).state.Open?
    && var last := Current(w, gate.value).lastFailure;
       last.None? || env.clock(w.readings) - last.value < env.config(gate.value).recoveryTimeout
  }

  /** Past the gate: its breaker was asked, and is half-open if it was open. */
  function PastGate(w: World, gate: Option<nat>): World {
    match gate
    case None => w
    case Some(id) =>
      var b := Current(w, id);
      w.(readings := w.readings + 1, breakers := w.breakers[id := if b.state.Open? then b.(state := HalfOpen) else b])
  }

  /**
   * A recovery comes to its primary's success, or else, unless the gate is shut, to the first success among
   * its fallbacks, or else to the failure of its primary. Behind a shut gate no call is made.
   */
  lemma RecoveryReads(env: Environment, w: World, plan: Plan)
    ensures var first, r := Run(env, w, plan.primary), Recover(env, w, plan);
            if first.outcome.Success? then r == first
            else if GateShut(env, first.world, plan.gate) then
              r.outcome == Failure(CircuitBreakerOpen) && r.world.calls == first.world.calls
            else r == RunChain(env, PastGate(first.world, plan.gate), plan.fallbacks, first.outcome)
  {
    hide Run, RunChain;
    var first, r := Run(env, w, plan.primary), Recover(env, w, plan);
    if !first.outcome.Success? && plan.gate.Some? && !GateShut(env, first.world, plan.gate) {
      assert PastGate(first.world, plan.gate) == Asked(env, first.world, plan.gate.value);
    }
  }
}
