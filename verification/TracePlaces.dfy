/** Where the events of one run stand in its log and in the trace of all runs. */
module TracePlaces {
  import opened Interleavings
  import opened Traces

  lemma {:induction false} ProjectPrefix(trace: seq<Stamp>, n: nat, a: nat)
    requires n <= |trace|
    ensures Project(trace[..n], a) <= Project(trace, a)
  {
    if n == |trace| {
      assert trace[..n] == trace;
    } else {
      var shorter := trace[..|trace| - 1];
      ProjectPrefix(shorter, n, a);
      assert shorter[..n] == trace[..n];
    }
  }

  lemma PlaceInLog(trace: seq<Stamp>, i: nat, a: nat)
    requires i < |trace| && trace[i].run == a
    ensures var m := |Project(trace[..i], a)|;
            m < |Project(trace[..i + 1], a)| <= |Project(trace, a)| && Project(trace, a)[m] == trace[i].event
  {
    ProjectPrefix(trace, i + 1, a);
    assert trace[..i + 1][..i] == trace[..i];
    assert Project(trace[..i + 1], a) == Project(trace[..i], a) + [trace[i].event];
  }

  /** Two events of one run keep their order in its log. */
  lemma PlacesInLog(trace: seq<Stamp>, i: nat, j: nat, a: nat) returns (m: nat, n: nat)
    requires i < j < |trace| && trace[i].run == a && trace[j].run == a
    ensures m == |Project(trace[..i], a)| < n < |Project(trace, a)|
    ensures Project(trace, a)[m] == trace[i].event && Project(trace, a)[n] == trace[j].event
  {
    PlaceInLog(trace, i, a);
    PlaceInLog(trace, j, a);
    m, n := |Project(trace[..i], a)|, |Project(trace[..j], a)|;
    ProjectPrefix(trace[..j], i + 1, a);
    assert trace[..j][..i + 1] == trace[..i + 1];
  }

  /** Where an event of a run's log stands in the trace. */
  lemma {:induction false} PlaceInTrace(trace: seq<Stamp>, a: nat, x: nat) returns (j: nat)
    requires x < |Project(trace, a)|
    ensures j < |trace| && trace[j] == Stamp(a, Project(trace, a)[x]) && |Project(trace[..j], a)| == x
  {
    var n := |trace| - 1;
    if x < |Project(trace[..n], a)| {
      j := PlaceInTrace(trace[..n], a, x);
      assert trace[..n][..j] == trace[..j];
    } else {
      j := n;
    }
  }

  /** What comes later in a run's log comes later in the trace. */
  lemma LaterInTrace(trace: seq<Stamp>, i: nat, a: nat, x: nat) returns (j: nat)
    requires i < |trace| && trace[i].run == a && |Project(trace[..i], a)| < x < |Project(trace, a)|
    ensures i < j < |trace| && trace[j] == Stamp(a, Project(trace, a)[x])
  {
    j := PlaceInTrace(trace, a, x);
    assert j <= i ==> trace[..i][..j] == trace[..j];
    if j <= i {
      ProjectPrefix(trace[..i], j, a);
      assert false;
    }
  }

  lemma NextInLog(trace: seq<Stamp>, i: nat, a: nat)
    requires i + 1 < |trace| && trace[i].run == a && trace[i + 1].run == a
    ensures var m := |Project(trace[..i], a)|;
            m + 1 < |Project(trace, a)| && Project(trace, a)[m + 1] == trace[i + 1].event
  {
    PlaceInLog(trace, i, a);
    PlaceInLog(trace, i + 1, a);
    assert trace[..i + 1][..i] == trace[..i];
  }
}
