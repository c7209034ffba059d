/** What holds of the correlator over every schedule of any number of requests. */
module CorrelatorLaws {
  import opened Common
  import opened Correlator

  /** A request agrees with what is shared: ids are given out once, and its slot is in the table until filled. */
  ghost predicate RequestOk(s: Shared, i: nat, r: Request) {
    && (IdOf(r).Some? ==> IdOf(r).value < s.next)
    && (Listening(r) ==>
          if r.inbox.None? then r.id in s.pending && s.pending[r.id] == i
          else r.inbox.value.id == Number(r.id) && r.id !in s.pending)
    && ((r.Leaving? || r.Done?) ==>
         r.outcome != Err(ChannelClosed) && (r.outcome.Ok? ==> r.outcome.value.id == Number(r.id)))
  }

  /** May the slot of an id still be in the table? */
  predicate MayHoldSlot(r: Request, id: nat) {
    (Listening(r) || r.Leaving? || r.Dropped?) && IdOf(r) == Some(id)
  }

  ghost predicate PendingOk(s: System) {
    forall id :: id in s.shared.pending ==>
      s.shared.pending[id] < |s.requests| && MayHoldSlot(s.requests[s.shared.pending[id]], id)
  }

  ghost predicate IdsDiffer(s: System) {
    forall i, j :: 0 <= i < j < |s.requests| && IdOf(s.requests[i]).Some? ==> IdOf(s.requests[i]) != IdOf(s.requests[j])
  }

  ghost predicate SystemOk(s: System) {
    && (forall i :: 0 <= i < |s.requests| ==> RequestOk(s.shared, i, s.requests[i]))
    && PendingOk(s) && IdsDiffer(s)
  }

  /** A change to one request and to the slot of its own id only. */
  ghost predicate OwnChange(s: System, i: nat, shared: Shared, r: Request)
    requires i < |s.requests|
  {
    && s.shared.next <= shared.next && RequestOk(shared, i, r)
    && (IdOf(r) == IdOf(s.requests[i])
         || (IdOf(s.requests[i]).None? && IdOf(r) == Some(s.shared.next) && s.shared.next < shared.next))
    && (forall id :: Some(id) != IdOf(r) && id in shared.pending ==>
         id in s.shared.pending && shared.pending[id] == s.shared.pending[id])
    && (forall id :: Some(id) != IdOf(r) && id in s.shared.pending ==> id in shared.pending)
    && (forall id :: Some(id) == IdOf(r) && id in shared.pending ==> shared.pending[id] == i && MayHoldSlot(r, id))
  }

  lemma OwnChangeKeepsIds(s: System, i: nat, shared: Shared, r: Request)
    requires i < |s.requests| && SystemOk(s) && OwnChange(s, i, shared, r)
    ensures IdsDiffer(System(shared, s.requests[i := r]))
  {
    var t := System(shared, s.requests[i := r]);
    forall j, k | 0 <= j < k < |t.requests| && IdOf(t.requests[j]).Some?
      ensures IdOf(t.requests[j]) != IdOf(t.requests[k]) {
      assert RequestOk(s.shared, j, s.requests[j]) && RequestOk(s.shared, k, s.requests[k]);
    }
  }

  lemma OwnChangeKeepsOk(s: System, i: nat, shared: Shared, r: Request)
    requires i < |s.requests| && SystemOk(s) && OwnChange(s, i, shared, r)
    ensures SystemOk(System(shared, s.requests[i := r]))
  {
    var t := System(shared, s.requests[i := r]);
    OwnChangeKeepsIds(s, i, shared, r);
    forall j | 0 <= j < |t.requests| ensures RequestOk(t.shared, j, t.requests[j]) {
      if j != i {
        assert RequestOk(s.shared, j, s.requests[j]) && t.requests[j] == s.requests[j];
        assert t.requests[i] == r;
      }
    }
    forall id | id in shared.pending
      ensures shared.pending[id] < |t.requests| && MayHoldSlot(t.requests[shared.pending[id]], id) {
    }
  }

  lemma PostKeepsOk(s: System, expected: nat, response: Response, slot: nat)
    requires SystemOk(s)
    requires RouteOf(s.shared, expected, Reply(response)) == Handed(slot, response)
    ensures SystemOk(Post(s.(shared := TakePending(s.shared, response.id.n)), slot, response))
  {
    var r := s.requests[slot];
    assert RequestOk(s.shared, slot, r);
    var shared := TakePending(s.shared, response.id.n);
    if Listening(r) {
      OwnChangeKeepsOk(s, slot, shared, r.(inbox := Some(response)));
    } else {
      OwnChangeKeepsOk(s, slot, shared, r);
      assert s.requests[slot := r] == s.requests;
    }
  }

  /**
   * Routing is the only move that touches two requests: the reader goes back to waiting, then the owner's
   * slot is filled.
   */
  lemma DispatchKeepsOk(s: System, i: nat)
    requires i < |s.requests| && SystemOk(s) && s.requests[i].Holding?
    ensures SystemOk(DispatchHeld(s, i))
  {
    var r := s.requests[i];
    assert RequestOk(s.shared, i, r);
    var shared := AfterRouting(s.shared, r.id, r.message);
    match RouteOf(s.shared, r.id, r.message)
    case Mine(response) =>
      OwnChangeKeepsOk(s, i, shared, Leaving(r.id, Ok(response)));
    case Handed(slot, response) =>
      OwnChangeKeepsOk(s, i, s.shared, Waiting(r.id, r.inbox));
      PostKeepsOk(Become(s, i, Waiting(r.id, r.inbox)), r.id, response, slot);
    case Consumed =>
      assert shared.pending == s.shared.pending;
      OwnChangeKeepsOk(s, i, shared, Waiting(r.id, r.inbox));
  }

  predicate ChangesShared(m: Move) {
    m.Allocate? || m.Register? || m.Leave? || m.TakeNotice?
  }

  lemma SharedMoveIsOwn(s: System, i: nat, m: Move)
    requires i < |s.requests| && SystemOk(s) && Can(s, i, m) && ChangesShared(m)
    ensures var t := Step(s, i, m);
            t.requests == s.requests[i := t.requests[i]] && OwnChange(s, i, t.shared, t.requests[i])
  {
    var r := s.requests[i];
    assert RequestOk(s.shared, i, r);
    if IdOf(r).Some? && IdOf(r).value in s.shared.pending {
      SlotIsItsOwn(s, i, IdOf(r).value);
    }
  }

  lemma QuietMoveIsOwn(s: System, i: nat, m: Move)
    requires i < |s.requests| && SystemOk(s) && Can(s, i, m) && !ChangesShared(m) && !m.Dispatch? && !m.ReadAndDispatch?
    ensures var t := Step(s, i, m);
            t == System(s.shared, s.requests[i := t.requests[i]]) && OwnChange(s, i, s.shared, t.requests[i])
  {
    var r := s.requests[i];
    assert RequestOk(s.shared, i, r);
    if IdOf(r).Some? && IdOf(r).value in s.shared.pending {
      SlotIsItsOwn(s, i, IdOf(r).value);
    }
  }

  lemma StepKeepsOk(s: System, i: nat, m: Move)
    requires i < |s.requests| && SystemOk(s) && Can(s, i, m)
    ensures SystemOk(Step(s, i, m))
  {
    if m.Dispatch? {
      DispatchKeepsOk(s, i);
    } else if m.ReadAndDispatch? {
      var held := Step(s, i, Read(m.incoming));
      QuietMoveIsOwn(s, i, Read(m.incoming));
      OwnChangeKeepsOk(s, i, held.shared, held.requests[i]);
      DispatchKeepsOk(held, i);
    } else {
      var t := Step(s, i, m);
      if ChangesShared(m) {
        SharedMoveIsOwn(s, i, m);
      } else {
        QuietMoveIsOwn(s, i, m);
      }
      OwnChangeKeepsOk(s, i, t.shared, t.requests[i]);
    }
  }

  /** The invariant holds whatever the requests do and the server sends. */
  lemma {:induction false} EveryScheduleIsOk(count: nat, turns: seq<Turn>)
    ensures SystemOk(Play(count, turns)) && |Play(count, turns).requests| == count
  {
    if turns != [] {
      var s, t := Play(count, turns[..|turns| - 1]), turns[|turns| - 1];
      EveryScheduleIsOk(count, turns[..|turns| - 1]);
      if t.request < |s.requests| && Can(s, t.request, t.move) {
        StepKeepsOk(s, t.request, t.move);
      }
    }
  }

  /** No two requests ever carry the same id. */
  lemma IdsAreUnique(count: nat, turns: seq<Turn>, i: nat, j: nat)
    requires i < count && j < count
    ensures |Play(count, turns).requests| == count
    ensures var a, b := IdOf(Play(count, turns).requests[i]), IdOf(Play(count, turns).requests[j]);
            a.Some? && a == b ==> i == j
  {
    EveryScheduleIsOk(count, turns);
  }

  /** A request that returns a response returns one that carries its own id. */
  lemma ResponsesAreNotCrossed(count: nat, turns: seq<Turn>, i: nat)
    requires i < count
    ensures |Play(count, turns).requests| == count
    ensures var r := Play(count, turns).requests[i]; r.Done? && r.outcome.Ok? ==> r.outcome.value.id == Number(r.id)
  {
    EveryScheduleIsOk(count, turns);
    assert RequestOk(Play(count, turns).shared, i, Play(count, turns).requests[i]);
  }

  /** The branch for a closed response channel is never taken. */
  lemma ChannelIsNeverFoundClosed(count: nat, turns: seq<Turn>, i: nat)
    requires i < count
    ensures |Play(count, turns).requests| == count && !Can(Play(count, turns), i, FindClosed)
    ensures var r := Play(count, turns).requests[i]; r.Done? ==> r.outcome != Err(ChannelClosed)
  {
    EveryScheduleIsOk(count, turns);
    assert RequestOk(Play(count, turns).shared, i, Play(count, turns).requests[i]);
  }

  lemma SlotIsItsOwn(s: System, i: nat, id: nat)
    requires SystemOk(s) && i < |s.requests| && IdOf(s.requests[i]) == Some(id) && id in s.shared.pending
    ensures s.shared.pending[id] == i
  {
    assert MayHoldSlot(s.requests[s.shared.pending[id]], id);
  }

  /**
   * A pending slot belongs to the request with its id, which is in flight or was dropped; never to one that
   * returned.
   */
  lemma PendingIsInFlight(count: nat, turns: seq<Turn>, id: nat)
    ensures var s := Play(count, turns);
            id in s.shared.pending ==>
              var i := s.shared.pending[id];
              i < |s.requests| && IdOf(s.requests[i]) == Some(id) && !s.requests[i].Done? && !s.requests[i].Numbered?
    ensures var s := Play(count, turns);
            forall i :: 0 <= i < |s.requests| && s.requests[i].Done? ==> s.requests[i].id !in s.shared.pending
  {
    EveryScheduleIsOk(count, turns);
    var s := Play(count, turns);
    forall i | 0 <= i < |s.requests| && s.requests[i].Done? ensures s.requests[i].id !in s.shared.pending {
      var k := s.requests[i].id;
      if k in s.shared.pending {
        SlotIsItsOwn(s, i, k);
        assert false;
      }
    }
  }
}
