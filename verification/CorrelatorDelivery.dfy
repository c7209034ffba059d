/** When a response reaches the request it answers, over every schedule. */
module CorrelatorDelivery {
  import opened Common
  import opened Correlator
  import opened CorrelatorLaws

  /** The response a request has been given, collected or not. */
  function Got(r: Request): Option<Response> {
    match r
    case Sending(_, inbox) => inbox
    case Waiting(_, inbox) => inbox
    case Holding(_, inbox, _) => inbox
    case Leaving(_, outcome) => if outcome.Ok? then Some(outcome.value) else None
    case Done(_, outcome) => if outcome.Ok? then Some(outcome.value) else None
    case _ => None
  }

  predicate GivesUp(m: Move) {
    m.FailToSend? || m.FindClosed? || m.FailToRead? || m.TimeOut? || m.Drop?
  }

  /** The message a turn routes, if it routes one. */
  function Routed(s: System, t: Turn): Option<Message> {
    if t.request < |s.requests| && Can(s, t.request, t.move) then
      match t.move
      case Dispatch => Some(s.requests[t.request].message)
      case ReadAndDispatch(m) => Some(m)
      case _ => None
    else None
  }

  predicate Answers(m: Message, id: nat) {
    m.Reply? && m.response.id == Number(id)
  }

  predicate Carries(s: System, t: Turn, id: nat) {
    Routed(s, t).Some? && Answers(Routed(s, t).value, id)
  }

  lemma DispatchGives(s: System, i: nat, j: nat)
    requires SystemOk(s) && i < |s.requests| && s.requests[i].Holding? && j < |s.requests| && Listening(s.requests[j])
    requires Got(s.requests[j]).None? && Answers(s.requests[i].message, s.requests[j].id)
    ensures |DispatchHeld(s, i).requests| == |s.requests|
    ensures Got(DispatchHeld(s, i).requests[j]) == Some(s.requests[i].message.response)
    ensures IdOf(DispatchHeld(s, i).requests[j]) == IdOf(s.requests[j])
  {
    assert RequestOk(s.shared, j, s.requests[j]);
    if i != j {
      assert IdOf(s.requests[i]) != IdOf(s.requests[j]);
    }
  }

  lemma DispatchSpares(s: System, i: nat, j: nat)
    requires SystemOk(s) && i < |s.requests| && s.requests[i].Holding? && j < |s.requests|
    requires IdOf(s.requests[j]).Some? ==> !Answers(s.requests[i].message, IdOf(s.requests[j]).value)
    ensures |DispatchHeld(s, i).requests| == |s.requests|
    ensures Got(DispatchHeld(s, i).requests[j]) == Got(s.requests[j])
    ensures IdOf(DispatchHeld(s, i).requests[j]) == IdOf(s.requests[j])
  {
    var r := s.requests[i];
    var route := RouteOf(s.shared, r.id, r.message);
    if route.Handed? {
      assert MayHoldSlot(s.requests[route.slot], route.response.id.n);
    }
  }

  /** A turn that carries a listening request its response gives it to that request. */
  lemma CarryingGives(s: System, t: Turn, j: nat)
    requires SystemOk(s) && j < |s.requests| && Listening(s.requests[j]) && Got(s.requests[j]).None?
    requires Carries(s, t, s.requests[j].id)
    ensures |Take(s, t).requests| == |s.requests|
    ensures Got(Take(s, t).requests[j]) == Some(Routed(s, t).value.response)
    ensures IdOf(Take(s, t).requests[j]) == IdOf(s.requests[j])
  {
    var i := t.request;
    if t.move.Dispatch? {
      DispatchGives(s, i, j);
    } else {
      var held := Step(s, i, Read(t.move.incoming));
      StepKeepsOk(s, i, Read(t.move.incoming));
      DispatchGives(held, i, j);
    }
  }

  lemma DispatchKeepsIds(s: System, i: nat, j: nat)
    requires i < |s.requests| && s.requests[i].Holding? && j < |s.requests|
    ensures |DispatchHeld(s, i).requests| == |s.requests| && IdOf(DispatchHeld(s, i).requests[j]) == IdOf(s.requests[j])
  {
  }

  lemma IdStays(s: System, t: Turn, j: nat)
    requires SystemOk(s) && j < |s.requests|
    ensures |Take(s, t).requests| == |s.requests|
    ensures IdOf(s.requests[j]).Some? ==> IdOf(Take(s, t).requests[j]) == IdOf(s.requests[j])
  {
    var i := t.request;
    if i < |s.requests| && Can(s, i, t.move) {
      if t.move.Dispatch? {
        DispatchKeepsIds(s, i, j);
      } else if t.move.ReadAndDispatch? {
        DispatchKeepsIds(Step(s, i, Read(t.move.incoming)), i, j);
      }
    }
  }

  /** Any other turn changes nothing for a request that does not itself give up. */
  lemma OthersSpare(s: System, t: Turn, j: nat)
    requires SystemOk(s) && j < |s.requests|
    requires IdOf(s.requests[j]).Some? ==> !Carries(s, t, IdOf(s.requests[j]).value)
    requires t.request == j ==> !GivesUp(t.move)
    ensures |Take(s, t).requests| == |s.requests|
    ensures Got(Take(s, t).requests[j]) == Got(s.requests[j])
  {
    var i := t.request;
    if i < |s.requests| && Can(s, i, t.move) {
      if t.move.Dispatch? {
        DispatchSpares(s, i, j);
      } else if t.move.ReadAndDispatch? {
        var held := Step(s, i, Read(t.move.incoming));
        StepKeepsOk(s, i, Read(t.move.incoming));
        DispatchSpares(held, i, j);
      }
    }
  }

  /** The state before a turn of a schedule. */
  function At(count: nat, turns: seq<Turn>, q: nat): System
    requires q <= |turns|
  {
    Play(count, turns[..q])
  }

  lemma AtNext(count: nat, turns: seq<Turn>, q: nat)
    requires q < |turns|
    ensures At(count, turns, q + 1) == Take(At(count, turns, q), turns[q])
    ensures SystemOk(At(count, turns, q))
            && |At(count, turns, q).requests| == |At(count, turns, q + 1).requests| == count
  {
    assert turns[..q + 1][..q] == turns[..q];
    EveryScheduleIsOk(count, turns[..q]);
    EveryScheduleIsOk(count, turns[..q + 1]);
  }

  lemma {:induction false} IdIsForever(count: nat, turns: seq<Turn>, q: nat, p: nat, j: nat)
    requires q <= p <= |turns| && j < count
    ensures |At(count, turns, q).requests| == |At(count, turns, p).requests| == count
    ensures IdOf(At(count, turns, q).requests[j]).Some? ==>
              IdOf(At(count, turns, p).requests[j]) == IdOf(At(count, turns, q).requests[j])
    decreases p - q
  {
    EveryScheduleIsOk(count, turns[..q]);
    if q < p {
      AtNext(count, turns, q);
      IdStays(At(count, turns, q), turns[q], j);
      IdIsForever(count, turns, q + 1, p, j);
    }
  }

  /** A request listens for an id when the one response to it is routed, at turn `p`, and never gives up. */
  ghost predicate AnsweredOnce(count: nat, turns: seq<Turn>, p: nat, j: nat, id: nat) {
    && p < |turns| && j < count && |At(count, turns, p).requests| == count
    && Listening(At(count, turns, p).requests[j]) && At(count, turns, p).requests[j].id == id
    && (forall q :: 0 <= q < |turns| ==> (Carries(At(count, turns, q), turns[q], id) <==> q == p))
    && (forall q :: 0 <= q < |turns| && turns[q].request == j ==> !GivesUp(turns[q].move))
  }

  lemma {:induction false} NothingBefore(count: nat, turns: seq<Turn>, p: nat, j: nat, id: nat, q: nat)
    requires AnsweredOnce(count, turns, p, j, id) && q <= p
    ensures |At(count, turns, q).requests| == count && Got(At(count, turns, q).requests[j]).None?
  {
    if q == 0 {
      assert turns[..0] == [];
    } else {
      NothingBefore(count, turns, p, j, id, q - 1);
      AtNext(count, turns, q - 1);
      IdIsForever(count, turns, q - 1, p, j);
      OthersSpare(At(count, turns, q - 1), turns[q - 1], j);
    }
  }

  lemma GivenThen(count: nat, turns: seq<Turn>, p: nat, j: nat, id: nat)
    requires AnsweredOnce(count, turns, p, j, id)
    ensures |At(count, turns, p + 1).requests| == count && IdOf(At(count, turns, p + 1).requests[j]) == Some(id)
    ensures Got(At(count, turns, p + 1).requests[j]) == Some(Routed(At(count, turns, p), turns[p]).value.response)
  {
    AtNext(count, turns, p);
    NothingBefore(count, turns, p, j, id, p);
    CarryingGives(At(count, turns, p), turns[p], j);
  }

  lemma {:induction false} KeptBetween(count: nat, turns: seq<Turn>, from: nat, to: nat, j: nat, id: nat)
    requires from <= to <= |turns| && j < count
    requires |At(count, turns, from).requests| == count && IdOf(At(count, turns, from).requests[j]) == Some(id)
    requires forall q :: from <= q < to ==> !Carries(At(count, turns, q), turns[q], id)
    requires forall q :: from <= q < to && turns[q].request == j ==> !GivesUp(turns[q].move)
    ensures |At(count, turns, to).requests| == count
    ensures Got(At(count, turns, to).requests[j]) == Got(At(count, turns, from).requests[j])
    decreases |turns| - from
  {
    if from < to {
      AtNext(count, turns, from);
      IdStays(At(count, turns, from), turns[from], j);
      OthersSpare(At(count, turns, from), turns[from], j);
      KeptBetween(count, turns, from + 1, to, j, id);
    }
  }

  /**
   * The one response routed to a listening request reaches it at that turn: it has nothing before, and
   * has that response ever after, so that if it returns it returns that response.
   */
  lemma DeliveredExactlyOnce(count: nat, turns: seq<Turn>, p: nat, j: nat, id: nat, q: nat)
    requires AnsweredOnce(count, turns, p, j, id) && q <= |turns|
    ensures |At(count, turns, q).requests| == count
    ensures Got(At(count, turns, q).requests[j]) ==
            if q <= p then None else Some(Routed(At(count, turns, p), turns[p]).value.response)
    ensures At(count, turns, q).requests[j].Done? ==>
              p < q && At(count, turns, q).requests[j].outcome ==
                Ok(Routed(At(count, turns, p), turns[p]).value.response)
  {
    if q <= p {
      NothingBefore(count, turns, p, j, id, q);
      if At(count, turns, q).requests[j].Done? {
        DoneStays(count, turns, q, p, j);
        assert false;
      }
    } else {
      GivenThen(count, turns, p, j, id);
      KeptBetween(count, turns, p + 1, q, j, id);
    }
  }

  lemma {:induction false} DoneStays(count: nat, turns: seq<Turn>, q: nat, p: nat, j: nat)
    requires q <= p <= |turns| && j < count && |At(count, turns, q).requests| == count
             && At(count, turns, q).requests[j].Done?
    ensures |At(count, turns, p).requests| == count && At(count, turns, p).requests[j].Done?
    decreases p - q
  {
    if q < p {
      AtNext(count, turns, q);
      assert At(count, turns, q + 1).requests[j].Done?;
      DoneStays(count, turns, q + 1, p, j);
    }
  }

  /** Every message is routed in the same turn that reads it. */
  ghost predicate Atomic(turns: seq<Turn>) {
    forall q :: 0 <= q < |turns| ==> !turns[q].move.Read?
  }

  ghost predicate NoneHolds(s: System) {
    forall i :: 0 <= i < |s.requests| ==> !s.requests[i].Holding?
  }

  lemma NoneHoldsAfter(s: System, t: Turn)
    requires NoneHolds(s) && !t.move.Read?
    ensures NoneHolds(Take(s, t))
  {
  }

  lemma {:induction false} NobodyHolds(count: nat, turns: seq<Turn>)
    requires Atomic(turns)
    ensures NoneHolds(Play(count, turns))
  {
    if turns != [] {
      NobodyHolds(count, turns[..|turns| - 1]);
      NoneHoldsAfter(Play(count, turns[..|turns| - 1]), turns[|turns| - 1]);
    }
  }

  /** A read that is allowed of a response to an id. */
  predicate ReadsAnswer(s: System, t: Turn, id: nat) {
    t.request < |s.requests| && t.move.ReadAndDispatch? && Can(s, t.request, t.move) && Answers(t.move.incoming, id)
  }

  lemma OnlyReadsCarry(s: System, t: Turn, id: nat)
    requires NoneHolds(s)
    ensures Carries(s, t, id) <==> ReadsAnswer(s, t, id)
  {
  }

  /**
   * When reading and routing are one step, no response read is lost: the one read for a listening request
   * reaches it.
   */
  lemma AtomicReadsDeliver(count: nat, turns: seq<Turn>, p: nat, j: nat, id: nat, response: Response)
    requires Atomic(turns) && p < |turns| && j < count && turns[p].move == ReadAndDispatch(Reply(response))
    requires |At(count, turns, p).requests| == count && Listening(At(count, turns, p).requests[j])
             && At(count, turns, p).requests[j].id == id
    requires forall q :: 0 <= q < |turns| ==> (ReadsAnswer(At(count, turns, q), turns[q], id) <==> q == p)
    requires forall q :: 0 <= q < |turns| && turns[q].request == j ==> !GivesUp(turns[q].move)
    ensures AnsweredOnce(count, turns, p, j, id)
    ensures |Play(count, turns).requests| == count && Got(Play(count, turns).requests[j]) == Some(response)
  {
    forall q | 0 <= q < |turns| ensures Carries(At(count, turns, q), turns[q], id) <==> q == p {
      NobodyHolds(count, turns[..q]);
      OnlyReadsCarry(At(count, turns, q), turns[q], id);
    }
    DeliveredExactlyOnce(count, turns, p, j, id, |turns|);
    assert turns[..|turns|] == turns;
  }

  lemma OneMoreTurn(count: nat, turns: seq<Turn>, t: Turn)
    ensures Play(count, turns + [t]) == Take(Play(count, turns), t)
  {
    assert (turns + [t])[..|turns|] == turns;
  }

  /** Two requests that have been sent and are waiting. */
  function BothSent(): seq<Turn> {
    [] + [Turn(0, Allocate)] + [Turn(0, Move.Register)] + [Turn(0, Send)] + [Turn(1, Allocate)] +
      [Turn(1, Move.Register)] + [Turn(1, Send)]
  }

  lemma BothWait()
    ensures Play(2, BothSent()) == System(Shared(3, map[1 := 0, 2 := 1], [], []), [Waiting(1, None), Waiting(2, None)])
  {
    var a: seq<Turn> := [] + [Turn(0, Allocate)];
    OneMoreTurn(2, [], Turn(0, Allocate));
    OneMoreTurn(2, a, Turn(0, Move.Register));
    var b := a + [Turn(0, Move.Register)];
    OneMoreTurn(2, b, Turn(0, Send));
    var c := b + [Turn(0, Send)];
    assert Play(2, c) == System(Shared(2, map[1 := 0], [], []), [Waiting(1, None), Starting]);
    OneMoreTurn(2, c, Turn(1, Allocate));
    var d := c + [Turn(1, Allocate)];
    OneMoreTurn(2, d, Turn(1, Move.Register));
    var e := d + [Turn(1, Move.Register)];
    assert Play(2, e) == System(Shared(3, map[1 := 0, 2 := 1], [], []), [Waiting(1, None), Sending(2, None)]);
    OneMoreTurn(2, e, Turn(1, Send));
  }

  /** The first reads the second's response and times out; the second waits on, its slot empty. */
  lemma AResponseIsLost(response: Response)
    requires response.id == Number(2)
    ensures Play(2, BothSent() + [Turn(0, Read(Reply(response)))] + [Turn(0, TimeOut)]) ==
            System(Shared(3, map[1 := 0, 2 := 1], [], []), [Leaving(1, Err(TimedOut)), Waiting(2, None)])
  {
    BothWait();
    OneMoreTurn(2, BothSent(), Turn(0, Read(Reply(response))));
    OneMoreTurn(2, BothSent() + [Turn(0, Read(Reply(response)))], Turn(0, TimeOut));
  }

  /** A response to a listening request is routed at turn `q`. */
  ghost predicate HearsAt(count: nat, turns: seq<Turn>, j: nat, q: int) {
    && 0 <= q < |turns| && j < |At(count, turns, q).requests|
    && Listening(At(count, turns, q).requests[j])
    && Carries(At(count, turns, q), turns[q], At(count, turns, q).requests[j].id)
  }

  lemma DispatchKeepsGot(s: System, i: nat, j: nat)
    requires SystemOk(s) && i < |s.requests| && s.requests[i].Holding? && j < |s.requests|
    ensures |DispatchHeld(s, i).requests| == |s.requests|
    ensures Got(s.requests[j]).Some? ==> Got(DispatchHeld(s, i).requests[j]).Some?
    ensures !Listening(s.requests[j]) ==> Got(DispatchHeld(s, i).requests[j]) == Got(s.requests[j])
  {
  }

  lemma TakeKeepsGot(s: System, t: Turn, j: nat)
    requires SystemOk(s) && j < |s.requests| && (t.request == j ==> !GivesUp(t.move))
    ensures |Take(s, t).requests| == |s.requests|
    ensures Got(s.requests[j]).Some? ==> Got(Take(s, t).requests[j]).Some?
    ensures !Listening(s.requests[j]) ==> Got(Take(s, t).requests[j]) == Got(s.requests[j])
  {
    hide DispatchHeld;
    var i := t.request;
    if i < |s.requests| && Can(s, i, t.move) {
      if t.move.Dispatch? {
        DispatchKeepsGot(s, i, j);
      } else if t.move.ReadAndDispatch? {
        StepKeepsOk(s, i, Read(t.move.incoming));
        DispatchKeepsGot(Step(s, i, Read(t.move.incoming)), i, j);
      }
    }
  }

  /** What one turn does to a request that does not give up at it. */
  lemma GotStep(s: System, t: Turn, j: nat)
    requires SystemOk(s) && j < |s.requests| && (t.request == j ==> !GivesUp(t.move))
    ensures |Take(s, t).requests| == |s.requests|
    ensures Got(Take(s, t).requests[j]).Some? <==>
            Got(s.requests[j]).Some? || (Listening(s.requests[j]) && Carries(s, t, s.requests[j].id))
  {
    hide Take, Carries, SystemOk;
    TakeKeepsGot(s, t, j);
    if Listening(s.requests[j]) && Got(s.requests[j]).None? {
      if Carries(s, t, s.requests[j].id) {
        CarryingGives(s, t, j);
      } else {
        OthersSpare(s, t, j);
      }
    }
  }

  predicate GotAt(count: nat, turns: seq<Turn>, j: nat, n: nat) {
    n <= |turns| && j < |At(count, turns, n).requests| && Got(At(count, turns, n).requests[j]).Some?
  }

  lemma GotNext(count: nat, turns: seq<Turn>, j: nat, n: nat)
    requires j < count && n < |turns| && (turns[n].request == j ==> !GivesUp(turns[n].move))
    ensures GotAt(count, turns, j, n + 1) <==> GotAt(count, turns, j, n) || HearsAt(count, turns, j, n)
  {
    hide Carries, SystemOk, Take, Got, At;
    AtNext(count, turns, n);
    GotStep(At(count, turns, n), turns[n], j);
  }

  lemma NothingAtFirst(count: nat, turns: seq<Turn>, j: nat)
    ensures !GotAt(count, turns, j, 0)
    ensures forall q :: q < 0 ==> !HearsAt(count, turns, j, q)
  {
    assert turns[..0] == [];
  }

  lemma {:induction false} GotSoFar(count: nat, turns: seq<Turn>, j: nat, n: nat)
    requires j < count && n <= |turns|
    requires forall q :: 0 <= q < |turns| && turns[q].request == j ==> !GivesUp(turns[q].move)
    ensures GotAt(count, turns, j, n) <==> exists q :: q < n && HearsAt(count, turns, j, q)
  {
    hide GotAt, HearsAt;
    if n == 0 {
      NothingAtFirst(count, turns, j);
    } else {
      GotSoFar(count, turns, j, n - 1);
      GotNext(count, turns, j, n - 1);
    }
  }

  /**
   * A request that never gives up has a response in the end exactly when, at some turn, one to its id was
   * routed while it listened.
   */
  lemma GotIff(count: nat, turns: seq<Turn>, j: nat)
    requires j < count
    requires forall q :: 0 <= q < |turns| && turns[q].request == j ==> !GivesUp(turns[q].move)
    ensures |Play(count, turns).requests| == count
    ensures Got(Play(count, turns).requests[j]).Some? <==> exists q :: HearsAt(count, turns, j, q)
  {
    EveryScheduleIsOk(count, turns);
    GotSoFar(count, turns, j, |turns|);
    assert turns[..|turns|] == turns;
    if q :| HearsAt(count, turns, j, q) {
      assert q < |turns|;
    }
  }

  /** Routing a message leaves a request what it has, or gives it the response to its id. */
  lemma DispatchGivesItsOwn(s: System, i: nat, j: nat)
    requires SystemOk(s) && i < |s.requests| && s.requests[i].Holding? && j < |s.requests|
    ensures |DispatchHeld(s, i).requests| == |s.requests|
    ensures var was, m := s.requests[j], s.requests[i].message;
            || Got(DispatchHeld(s, i).requests[j]) == Got(was)
            || (Listening(was) && Answers(m, was.id) && Got(DispatchHeld(s, i).requests[j]) == Some(m.response))
  {
    var r := s.requests[i];
    var route := RouteOf(s.shared, r.id, r.message);
    if route.Handed? {
      assert MayHoldSlot(s.requests[route.slot], route.response.id.n);
    }
  }

  lemma TakeGivesItsOwn(s: System, t: Turn, j: nat, response: Response)
    requires SystemOk(s) && j < |s.requests| && |Take(s, t).requests| == |s.requests|
    requires Got(Take(s, t).requests[j]) == Some(response)
    ensures || Got(s.requests[j]) == Some(response)
            || (Listening(s.requests[j]) && Carries(s, t, s.requests[j].id) && Routed(s, t).value.response == response)
  {
    hide DispatchHeld, SystemOk;
    var i := t.request;
    if i < |s.requests| && Can(s, i, t.move) {
      if t.move.Dispatch? {
        DispatchGivesItsOwn(s, i, j);
      } else if t.move.ReadAndDispatch? {
        StepKeepsOk(s, i, Read(t.move.incoming));
        DispatchGivesItsOwn(Step(s, i, Read(t.move.incoming)), i, j);
      }
    }
  }

  /** The response routed to the request at turn `q` is this one. */
  ghost predicate HearsThis(count: nat, turns: seq<Turn>, j: nat, q: int, response: Response) {
    HearsAt(count, turns, j, q) && Routed(At(count, turns, q), turns[q]).value.response == response
  }

  /**
   * However many responses there are to its id, and whether or not it gives up: what a request has was routed
   * to it.
   */
  lemma {:induction false} GotWasRouted(count: nat, turns: seq<Turn>, j: nat, n: nat, response: Response)
    requires j < count && n <= |turns| && |At(count, turns, n).requests| == count
    requires Got(At(count, turns, n).requests[j]) == Some(response)
    ensures exists q :: q < n && HearsThis(count, turns, j, q, response)
  {
    NothingAtFirst(count, turns, j);
    if n > 0 {
      hide Take, SystemOk, Got;
      AtNext(count, turns, n - 1);
      TakeGivesItsOwn(At(count, turns, n - 1), turns[n - 1], j, response);
      if Got(At(count, turns, n - 1).requests[j]) == Some(response) {
        GotWasRouted(count, turns, j, n - 1, response);
      } else {
        assert HearsThis(count, turns, j, n - 1, response);
      }
    }
  }

  /** The turns at which a request lets go of a message it holds. */
  predicate LetsGo(t: Turn, i: nat) {
    t.request == i && (t.move.Dispatch? || t.move.TimeOut? || t.move.Drop?)
  }

  predicate HoldsAt(s: System, i: nat, m: Message) {
    i < |s.requests| && s.requests[i].Holding? && s.requests[i].message == m
  }

  lemma HoldsOn(s: System, t: Turn, i: nat, m: Message)
    requires HoldsAt(s, i, m)
    ensures HoldsAt(Take(s, t), i, m) <==> !LetsGo(t, i)
  {
  }

  lemma {:induction false} HoldsUntil(count: nat, turns: seq<Turn>, p: nat, q: nat, i: nat, m: Message)
    requires p <= q <= |turns| && HoldsAt(At(count, turns, p), i, m)
    requires forall o :: p <= o < q ==> !LetsGo(turns[o], i)
    ensures HoldsAt(At(count, turns, q), i, m)
    decreases q
  {
    if p < q {
      HoldsUntil(count, turns, p, q - 1, i, m);
      AtNext(count, turns, q - 1);
      HoldsOn(At(count, turns, q - 1), turns[q - 1], i, m);
    }
  }

  /** The request routes the message it holds since turn `p`, at turn `q`. */
  ghost predicate RoutesAt(count: nat, turns: seq<Turn>, p: nat, i: nat, m: Message, q: int) {
    && p <= q < |turns| && turns[q].request == i && Routed(At(count, turns, q), turns[q]) == Some(m)
    && forall o :: p <= o <= q ==> HoldsAt(At(count, turns, o), i, m)
  }

  /** Its first turn that lets go, from `p` on, is a dispatch, at turn `q`. */
  predicate DispatchesFirst(turns: seq<Turn>, p: nat, i: nat, q: int) {
    && p <= q < |turns| && turns[q].request == i && turns[q].move.Dispatch?
    && forall o :: p <= o < q ==> !LetsGo(turns[o], i)
  }

  /**
   * A message read and held is routed exactly when its reader's dispatch comes before its timeout and
   * before it is dropped; otherwise it is lost, or held to the end.
   */
  lemma HeldIsRoutedIff(count: nat, turns: seq<Turn>, p: nat, i: nat, m: Message, q: nat)
    requires p <= |turns| && HoldsAt(At(count, turns, p), i, m)
    ensures RoutesAt(count, turns, p, i, m, q) <==> DispatchesFirst(turns, p, i, q)
  {
    if DispatchesFirst(turns, p, i, q) {
      forall o | p <= o <= q ensures HoldsAt(At(count, turns, o), i, m) {
        HoldsUntil(count, turns, p, o, i, m);
      }
    }
    if RoutesAt(count, turns, p, i, m, q) {
      forall o: nat | p <= o < q ensures !LetsGo(turns[o], i) {
        assert HoldsAt(At(count, turns, o), i, m) && HoldsAt(At(count, turns, o + 1), i, m);
        AtNext(count, turns, o);
        HoldsOn(At(count, turns, o), turns[o], i, m);
      }
      assert HoldsAt(At(count, turns, q), i, m);
    }
  }
}
