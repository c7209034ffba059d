/**
 * Any number of runs sharing one idempotency store, interleaved in any order
 * (crates/agentverify-runtime/src/executor.rs). A schedule is an arbitrary sequence of turns.
 */
module Interleavings {
  import opened Common
  import opened Verdicts
  import opened Idempotency
  import opened Executor
  import opened Runs
  import opened RunEffects
  import opened RunLogs
  import opened RunClaims

  datatype Stamp = Stamp(run: nat, event: Event)

  datatype Turn = Turn(run: nat, input: Input)

  datatype System = System(store: Store, runs: seq<Run>, trace: seq<Stamp>)

  /** A move records at most one event. */
  function Stamped(i: nat, es: seq<Event>): seq<Stamp> {
    if es == [] then [] else [Stamp(i, es[0])]
  }

  function Take(specs: seq<RunSpec>, s: System, turn: Turn): (t: System)
    requires |s.runs| == |specs|
    ensures |t.runs| == |specs|
  {
    var i := turn.run;
    if i < |specs| then
      var m := Move(specs[i], s.runs[i], s.store, turn.input);
      System(m.store, s.runs[i := m.run], s.trace + Stamped(i, NewEvents(specs[i], s.runs[i], s.store, turn.input)))
    else s
  }

  /** The system after a whole schedule, from an empty store. */
  function Play(specs: seq<RunSpec>, schedule: seq<Turn>): (s: System)
    ensures |s.runs| == |specs|
  {
    if schedule == [] then System(map[], seq(|specs|, _ => FRESH), [])
    else Take(specs, Play(specs, schedule[..|schedule| - 1]), schedule[|schedule| - 1])
  }

  lemma PlayOne(specs: seq<RunSpec>, schedule: seq<Turn>, turn: Turn)
    ensures Play(specs, schedule + [turn]) == Take(specs, Play(specs, schedule), turn)
  {
    assert (schedule + [turn])[..|schedule|] == schedule;
  }

  /** Everything known of one run on its own. */
  ghost predicate RunOk(spec: RunSpec, r: Run) {
    && Shape(spec, r) && LogOk(spec, r) && ClaimsOk(spec, r) && ReleaseOk(spec, r)
    && StoredOk(spec, r) && ReplyOk(spec, r) && SleptOk(spec, r)
    && (r.attempts > 1 || r.phase.Sleeping? ==> CanFail(spec))
  }

  lemma FreshIsOk(spec: RunSpec)
    ensures RunOk(spec, FRESH)
  {
  }

  lemma MoveKeepsRunOk(spec: RunSpec, r: Run, store: Store, input: Input)
    requires RunOk(spec, r)
    ensures RunOk(spec, Move(spec, r, store, input).run)
  {
    var q, es := Move(spec, r, store, input).run, NewEvents(spec, r, store, input);
    MoveKeepsShape(spec, r, store, input);
    MoveKeepsLog(spec, r, store, input);
    MoveClaimStep(spec, r, store, input);
    ClaimsStep(spec, r, q, es);
    ReleaseStep(spec, r, q, es);
    StoredStep(spec, r, q, es);
    ReplyStep(spec, r, q, es);
    SleptStep(spec, r, store, input);
    MoveEffect(spec, r, store, input);
  }

  predicate Holds(specs: seq<RunSpec>, s: System, i: nat, k: string)
    requires |s.runs| == |specs|
  {
    i < |specs| && s.runs[i].holds && specs[i].key == Some(k)
  }

  /** The runs and the store agree on who holds what, and no key has two holders. */
  ghost predicate HoldersOk(specs: seq<RunSpec>, s: System)
    requires |s.runs| == |specs|
  {
    && (forall i, k :: Holds(specs, s, i, k) ==> k in s.store && s.store[k].InFlight?)
    && (forall i, j, k :: Holds(specs, s, i, k) && Holds(specs, s, j, k) ==> i == j)
    && (forall k :: k in s.store && s.store[k].InFlight? ==> exists i :: Holds(specs, s, i, k))
  }

  /** Every stored verdict was stored by a run for that key. */
  ghost predicate OriginsOk(specs: seq<RunSpec>, s: System)
    requires |s.runs| == |specs|
  {
    forall k :: k in s.store && s.store[k].Completed? ==> exists i :: CompletedBy(specs, s, i, k, s.store[k].result)
  }

  /** Run `i` completed the key with this verdict. */
  predicate CompletedBy(specs: seq<RunSpec>, s: System, i: nat, k: string, v: Verdict)
    requires |s.runs| == |specs|
  {
    i < |specs| && specs[i].key == Some(k) && CompletedKey(k, v) in s.runs[i].log
  }

  ghost predicate RunsOk(specs: seq<RunSpec>, s: System)
    requires |s.runs| == |specs|
  {
    forall i :: 0 <= i < |specs| ==> RunOk(specs[i], s.runs[i])
  }

  lemma TakeKeepsRuns(specs: seq<RunSpec>, s: System, turn: Turn)
    requires |s.runs| == |specs| && RunsOk(specs, s)
    ensures RunsOk(specs, Take(specs, s, turn))
  {
    if turn.run < |specs| {
      MoveKeepsRunOk(specs[turn.run], s.runs[turn.run], s.store, turn.input);
    }
  }

  /** What one turn of run `i` changed, having recorded `es`. */
  ghost predicate Stepped(specs: seq<RunSpec>, s: System, t: System, i: nat, es: seq<Event>)
    requires |s.runs| == |specs| && |t.runs| == |specs|
  {
    && i < |specs| && |es| <= 1
    && (forall j :: 0 <= j < |specs| && j != i ==> t.runs[j] == s.runs[j])
    && t.trace == s.trace + Stamped(i, es)
    && StoreStep(specs[i], s.runs[i], s.store, es, Moved(t.runs[i], t.store))
    && ClaimStep(specs[i], s.runs[i], t.runs[i], es)
    && LogStep(specs[i], s.runs[i], t.runs[i], es)
    && (Waiting(t.runs[i]) ==> Waiting(s.runs[i]))
  }

  lemma TakeSteps(specs: seq<RunSpec>, s: System, turn: Turn)
    requires |s.runs| == |specs| && RunsOk(specs, s) && turn.run < |specs|
    ensures Stepped(specs, s, Take(specs, s, turn), turn.run,
                    NewEvents(specs[turn.run], s.runs[turn.run], s.store, turn.input))
  {
    var spec, r := specs[turn.run], s.runs[turn.run];
    MoveEffect(spec, r, s.store, turn.input);
    MoveClaimStep(spec, r, s.store, turn.input);
    MoveLogStep(spec, r, s.store, turn.input);
  }

  lemma HoldersStep(specs: seq<RunSpec>, s: System, t: System, i: nat, es: seq<Event>)
    requires |s.runs| == |specs| && |t.runs| == |specs|
    requires HoldersOk(specs, s) && i < |specs|
    requires forall j :: 0 <= j < |specs| && j != i ==> t.runs[j] == s.runs[j]
    requires StoreStep(specs[i], s.runs[i], s.store, es, Moved(t.runs[i], t.store))
    ensures HoldersOk(specs, t)
  {
    assert forall j, k :: j != i ==> (Holds(specs, t, j, k) <==> Holds(specs, s, j, k));
    forall j, k | Holds(specs, t, j, k)
      ensures k in t.store && t.store[k].InFlight?
    {
      if j != i || s.runs[i].holds {
        assert Holds(specs, s, j, k);
        if es != [] && (es[0].CompletedKey? || es[0].ReleasedKey?) && es[0].key == k {
          assert Holds(specs, s, i, k);
        }
      }
    }
    forall k | k in t.store && t.store[k].InFlight?
      ensures exists j :: Holds(specs, t, j, k)
    {
      if es != [] && (es[0].ClaimedKey? || es[0].StrayClaim?) && es[0].key == k {
        assert Holds(specs, t, i, k);
      } else {
        var j :| Holds(specs, s, j, k);
        assert j != i || t.runs[i].holds;
        assert Holds(specs, t, j, k);
      }
    }
  }

  lemma OriginsStep(specs: seq<RunSpec>, s: System, t: System, i: nat, es: seq<Event>)
    requires |s.runs| == |specs| && |t.runs| == |specs|
    requires OriginsOk(specs, s) && i < |specs|
    requires forall j :: 0 <= j < |specs| && j != i ==> t.runs[j] == s.runs[j]
    requires t.runs[i].log == s.runs[i].log + es
    requires StoreStep(specs[i], s.runs[i], s.store, es, Moved(t.runs[i], t.store))
    ensures OriginsOk(specs, t)
  {
    forall k | k in t.store && t.store[k].Completed?
      ensures exists j :: CompletedBy(specs, t, j, k, t.store[k].result)
    {
      if es != [] && es[0].CompletedKey? && es[0].key == k {
        assert CompletedBy(specs, t, i, k, t.store[k].result);
      } else {
        var j :| CompletedBy(specs, s, j, k, s.store[k].result);
        assert CompletedBy(specs, t, j, k, t.store[k].result);
      }
    }
  }

  /** A completed entry is final. */
  lemma CompletedStays(specs: seq<RunSpec>, s: System, t: System, i: nat, es: seq<Event>, k: string)
    requires |s.runs| == |specs| && |t.runs| == |specs|
    requires HoldersOk(specs, s) && Stepped(specs, s, t, i, es)
    requires k in s.store && s.store[k].Completed?
    ensures k in t.store && t.store[k] == s.store[k]
  {
    if es != [] && (es[0].CompletedKey? || es[0].ReleasedKey?) && es[0].key == k {
      assert Holds(specs, s, i, k);
    }
  }
}
