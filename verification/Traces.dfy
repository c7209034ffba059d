/** The order of dispatches and store calls across runs, in every interleaving. */
module Traces {
  import opened Common
  import opened Executor
  import opened RunEffects
  import opened Interleavings

  /** Event `i` of a trace is a dispatch on the key `k`. */
  predicate DispatchAt(specs: seq<RunSpec>, trace: seq<Stamp>, i: int, k: string) {
    0 <= i < |trace| && trace[i].run < |specs| && trace[i].event.Sent? && specs[trace[i].run].key == Some(k)
  }

  /** Run `a` released the key strictly between two places of a trace. */
  ghost predicate ReleasedBetween(trace: seq<Stamp>, from: int, to: int, a: nat, k: string) {
    exists p :: 0 <= from < p < to <= |trace| && trace[p] == Stamp(a, ReleasedKey(k))
  }

  /** Run `b` won its claim at `q`, and every other run that had dispatched had released before. */
  ghost predicate WonAt(specs: seq<RunSpec>, trace: seq<Stamp>, q: int, b: nat, k: string) {
    && 0 <= q < |trace| && trace[q] == Stamp(b, ClaimedKey(k))
    && forall i :: DispatchAt(specs, trace, i, k) && trace[i].run != b ==> ReleasedBetween(trace, i, q, trace[i].run, k)
  }

  /** A run that dispatched on a key still holds it, or released it, or the key is completed. */
  ghost predicate DispatchersAccounted(specs: seq<RunSpec>, s: System)
    requires |s.runs| == |specs|
  {
    forall i, k :: DispatchAt(specs, s.trace, i, k) ==>
      || Holds(specs, s, s.trace[i].run, k)
      || (k in s.store && s.store[k].Completed?)
      || ReleasedBetween(s.trace, i, |s.trace|, s.trace[i].run, k)
  }

  ghost predicate HoldersWon(specs: seq<RunSpec>, s: System)
    requires |s.runs| == |specs|
  {
    forall b: nat, k :: Holds(specs, s, b, k) && Waiting(s.runs[b]) ==> exists q :: WonAt(specs, s.trace, q, b, k)
  }

  /** The run that dispatches at `j` claimed the key after the run that dispatched at `i` had released it. */
  ghost predicate Separated(trace: seq<Stamp>, i: int, j: int, k: string)
    requires 0 <= i < |trace| && 0 <= j < |trace|
  {
    exists q :: 0 <= q < j && trace[q] == Stamp(trace[j].run, ClaimedKey(k))
      && ReleasedBetween(trace, i, q, trace[i].run, k)
  }

  /** Of two dispatches on one key by different runs, the earlier run released before the later one claimed. */
  ghost predicate DispatchesSeparated(specs: seq<RunSpec>, trace: seq<Stamp>) {
    forall i, j, k ::
      i < j && DispatchAt(specs, trace, i, k) && DispatchAt(specs, trace, j, k) && trace[i].run != trace[j].run ==>
        Separated(trace, i, j, k)
  }

  lemma ReleasedStays(trace: seq<Stamp>, more: seq<Stamp>, from: int, to: int, a: nat, k: string)
    requires ReleasedBetween(trace, from, to, a, k)
    ensures ReleasedBetween(trace + more, from, to, a, k)
    ensures ReleasedBetween(trace + more, from, |trace + more|, a, k)
  {
    var p :| 0 <= from < p < to <= |trace| && trace[p] == Stamp(a, ReleasedKey(k));
    assert (trace + more)[p] == trace[p];
  }

  lemma AccountedStep(specs: seq<RunSpec>, s: System, t: System, i: nat, es: seq<Event>)
    requires |s.runs| == |specs| && |t.runs| == |specs|
    requires RunsOk(specs, s) && HoldersOk(specs, s) && Stepped(specs, s, t, i, es)
    requires DispatchersAccounted(specs, s)
    ensures DispatchersAccounted(specs, t)
  {
    forall d, k | DispatchAt(specs, t.trace, d, k)
      ensures || Holds(specs, t, t.trace[d].run, k)
              || (k in t.store && t.store[k].Completed?)
              || ReleasedBetween(t.trace, d, |t.trace|, t.trace[d].run, k)
    {
      var a := t.trace[d].run;
      if d < |s.trace| {
        assert t.trace[d] == s.trace[d] && DispatchAt(specs, s.trace, d, k);
        if k in s.store && s.store[k].Completed? {
          CompletedStays(specs, s, t, i, es, k);
        } else if Holds(specs, s, a, k) {
          if a == i && es != [] && es[0].ReleasedKey? {
            assert t.trace[|s.trace|] == Stamp(a, ReleasedKey(k));
          }
        } else {
          ReleasedStays(s.trace, Stamped(i, es), d, |s.trace|, a, k);
        }
      } else {
        assert t.trace[d] == Stamp(i, es[0]);
        assert RunOk(specs[i], s.runs[i]);
      }
    }
  }

  /** A dispatching run holds its key. */
  lemma DispatcherHolds(specs: seq<RunSpec>, s: System, t: System, i: nat, es: seq<Event>, k: string)
    requires |s.runs| == |specs| && |t.runs| == |specs|
    requires RunsOk(specs, s) && Stepped(specs, s, t, i, es)
    requires es != [] && es[0].Sent? && specs[i].key == Some(k)
    ensures Holds(specs, s, i, k) && Waiting(s.runs[i])
  {
    assert RunOk(specs[i], s.runs[i]);
  }

  lemma WonStays(specs: seq<RunSpec>, s: System, t: System, i: nat, es: seq<Event>, q: int, b: nat, k: string)
    requires |s.runs| == |specs| && |t.runs| == |specs|
    requires RunsOk(specs, s) && HoldersOk(specs, s) && Stepped(specs, s, t, i, es)
    requires Holds(specs, s, b, k) && WonAt(specs, s.trace, q, b, k)
    ensures WonAt(specs, t.trace, q, b, k)
  {
    forall d | DispatchAt(specs, t.trace, d, k) && t.trace[d].run != b
      ensures ReleasedBetween(t.trace, d, q, t.trace[d].run, k)
    {
      if d < |s.trace| {
        assert DispatchAt(specs, s.trace, d, k);
        ReleasedStays(s.trace, Stamped(i, es), d, q, t.trace[d].run, k);
      } else {
        DispatcherHolds(specs, s, t, i, es, k);
        assert false;
      }
    }
  }

  lemma WinsNow(specs: seq<RunSpec>, s: System, t: System, i: nat, es: seq<Event>, k: string)
    requires |s.runs| == |specs| && |t.runs| == |specs|
    requires HoldersOk(specs, s) && Stepped(specs, s, t, i, es) && DispatchersAccounted(specs, s)
    requires es == [ClaimedKey(k)]
    ensures WonAt(specs, t.trace, |s.trace|, i, k)
  {
    forall d | DispatchAt(specs, t.trace, d, k) && t.trace[d].run != i
      ensures ReleasedBetween(t.trace, d, |s.trace|, t.trace[d].run, k)
    {
      assert DispatchAt(specs, s.trace, d, k);
      assert !Holds(specs, s, s.trace[d].run, k);
      ReleasedStays(s.trace, Stamped(i, es), d, |s.trace|, t.trace[d].run, k);
    }
  }

  lemma WonStep(specs: seq<RunSpec>, s: System, t: System, i: nat, es: seq<Event>)
    requires |s.runs| == |specs| && |t.runs| == |specs|
    requires RunsOk(specs, s) && HoldersOk(specs, s) && Stepped(specs, s, t, i, es)
    requires DispatchersAccounted(specs, s) && HoldersWon(specs, s)
    ensures HoldersWon(specs, t)
  {
    forall b: nat, k | Holds(specs, t, b, k) && Waiting(t.runs[b])
      ensures exists q :: WonAt(specs, t.trace, q, b, k)
    {
      if Holds(specs, s, b, k) {
        var q :| WonAt(specs, s.trace, q, b, k);
        WonStays(specs, s, t, i, es, q, b, k);
      } else {
        assert b == i && es == [ClaimedKey(k)];
        WinsNow(specs, s, t, i, es, k);
      }
    }
  }

  lemma SeparatedStays(trace: seq<Stamp>, more: seq<Stamp>, i: int, j: int, k: string)
    requires 0 <= i < |trace| && 0 <= j < |trace| && Separated(trace, i, j, k)
    ensures Separated(trace + more, i, j, k)
  {
    var q :| 0 <= q < j && trace[q] == Stamp(trace[j].run, ClaimedKey(k))
      && ReleasedBetween(trace, i, q, trace[i].run, k);
    ReleasedStays(trace, more, i, q, trace[i].run, k);
    assert (trace + more)[q] == trace[q];
  }

  lemma SeparatedNow(specs: seq<RunSpec>, trace: seq<Stamp>, q: int, b: nat, k: string, e: Event, d: int)
    requires WonAt(specs, trace, q, b, k) && DispatchAt(specs, trace, d, k) && trace[d].run != b
    ensures Separated(trace + [Stamp(b, e)], d, |trace|, k)
  {
    ReleasedStays(trace, [Stamp(b, e)], d, q, trace[d].run, k);
    assert (trace + [Stamp(b, e)])[q] == trace[q];
  }

  lemma SeparatedStep(specs: seq<RunSpec>, s: System, t: System, i: nat, es: seq<Event>)
    requires |s.runs| == |specs| && |t.runs| == |specs|
    requires RunsOk(specs, s) && Stepped(specs, s, t, i, es)
    requires HoldersWon(specs, s) && DispatchesSeparated(specs, s.trace)
    ensures DispatchesSeparated(specs, t.trace)
  {
    forall d, e, k | d < e && DispatchAt(specs, t.trace, d, k) && DispatchAt(specs, t.trace, e, k)
      && t.trace[d].run != t.trace[e].run
      ensures Separated(t.trace, d, e, k)
    {
      assert t.trace[d] == s.trace[d] && DispatchAt(specs, s.trace, d, k);
      if e < |s.trace| {
        assert t.trace[e] == s.trace[e] && DispatchAt(specs, s.trace, e, k);
        SeparatedStays(s.trace, Stamped(i, es), d, e, k);
      } else {
        DispatcherHolds(specs, s, t, i, es, k);
        var q :| WonAt(specs, s.trace, q, i, k);
        SeparatedNow(specs, s.trace, q, i, k, es[0], d);
      }
    }
  }

  /** The events of one run, in order. */
  function Project(trace: seq<Stamp>, i: nat): seq<Event> {
    if trace == [] then []
    else
      var last := trace[|trace| - 1];
      Project(trace[..|trace| - 1], i) + if last.run == i then [last.event] else []
  }

  /** The trace restricted to a run is that run's log. */
  ghost predicate Projects(specs: seq<RunSpec>, s: System)
    requires |s.runs| == |specs|
  {
    && (forall p :: 0 <= p < |s.trace| ==> s.trace[p].run < |specs|)
    && (forall i: nat :: i < |specs| ==> Project(s.trace, i) == s.runs[i].log)
  }

  lemma ProjectsStep(specs: seq<RunSpec>, s: System, t: System, i: nat, es: seq<Event>)
    requires |s.runs| == |specs| && |t.runs| == |specs|
    requires Stepped(specs, s, t, i, es) && Projects(specs, s)
    ensures Projects(specs, t)
  {
    if es != [] {
      assert t.trace[..|t.trace| - 1] == s.trace;
      assert t.trace[|t.trace| - 1] == Stamp(i, es[0]);
      forall j: nat | j < |specs| ensures Project(t.trace, j) == t.runs[j].log {
        assert Project(s.trace, j) == s.runs[j].log;
        assert i == j ==> es == [es[0]];
      }
    } else {
      assert t.trace == s.trace;
    }
  }

  /** The inductive invariant of the whole system. */
  ghost predicate SystemOk(specs: seq<RunSpec>, s: System)
    requires |s.runs| == |specs|
  {
    && RunsOk(specs, s) && HoldersOk(specs, s) && OriginsOk(specs, s)
    && DispatchersAccounted(specs, s) && HoldersWon(specs, s)
    && DispatchesSeparated(specs, s.trace) && Projects(specs, s)
  }

  lemma TakeKeepsSystem(specs: seq<RunSpec>, s: System, turn: Turn)
    requires |s.runs| == |specs| && SystemOk(specs, s)
    ensures SystemOk(specs, Take(specs, s, turn))
  {
    var t, i := Take(specs, s, turn), turn.run;
    if i < |specs| {
      var es := NewEvents(specs[i], s.runs[i], s.store, turn.input);
      TakeSteps(specs, s, turn);
      StepKeepsSystem(specs, s, t, i, es);
      TakeKeepsRuns(specs, s, turn);
    }
  }

  lemma StepKeepsSystem(specs: seq<RunSpec>, s: System, t: System, i: nat, es: seq<Event>)
    requires |s.runs| == |specs| && |t.runs| == |specs|
    requires SystemOk(specs, s) && Stepped(specs, s, t, i, es)
    ensures HoldersOk(specs, t) && OriginsOk(specs, t)
    ensures DispatchersAccounted(specs, t) && HoldersWon(specs, t)
    ensures DispatchesSeparated(specs, t.trace) && Projects(specs, t)
  {
    HoldersStep(specs, s, t, i, es);
    OriginsStep(specs, s, t, i, es);
    AccountedStep(specs, s, t, i, es);
    WonStep(specs, s, t, i, es);
    SeparatedStep(specs, s, t, i, es);
    ProjectsStep(specs, s, t, i, es);
  }

  /** The invariant holds after every schedule of any number of runs. */
  lemma {:induction false} EveryScheduleIsOk(specs: seq<RunSpec>, schedule: seq<Turn>)
    ensures SystemOk(specs, Play(specs, schedule))
  {
    if schedule == [] {
      var s := Play(specs, schedule);
      forall i | 0 <= i < |specs| ensures RunOk(specs[i], s.runs[i]) {
        FreshIsOk(specs[i]);
      }
      assert forall i, k :: !Holds(specs, s, i, k);
    } else {
      var n := |schedule| - 1;
      EveryScheduleIsOk(specs, schedule[..n]);
      TakeKeepsSystem(specs, Play(specs, schedule[..n]), schedule[n]);
    }
  }
}
