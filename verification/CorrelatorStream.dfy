/** What becomes of the messages that answer no request, and why requests fail, over every schedule. */
module CorrelatorStream {
  import opened Common
  import opened Correlator
  import opened CorrelatorDelivery

  predicate TakesNotice(s: System, t: Turn) {
    t.request < |s.requests| && t.move.TakeNotice?
  }

  /** The notice a turn routes, as a sequence of at most one. */
  function NoticeAt(s: System, t: Turn): seq<string> {
    match Routed(s, t)
    case Some(Notice(body)) => [body]
    case _ => []
  }

  /** The notices routed, in order. */
  function Notices(count: nat, turns: seq<Turn>): seq<string> {
    if turns == [] then []
    else
      var before, t := turns[..|turns| - 1], turns[|turns| - 1];
      Notices(count, before) + NoticeAt(Play(count, before), t)
  }

  /** What those got who took a notice off the queue, in order. */
  function Taken(count: nat, turns: seq<Turn>): seq<string> {
    if turns == [] then []
    else
      var before, t := turns[..|turns| - 1], turns[|turns| - 1];
      var s := Play(count, before);
      Taken(count, before) + if TakesNotice(s, t) && s.shared.queue != [] then [s.shared.queue[0]] else []
  }

  /** The notices routed while fewer than 64 had been accepted and not yet taken. */
  function Accepted(count: nat, turns: seq<Turn>): seq<string> {
    if turns == [] then []
    else
      var before, t := turns[..|turns| - 1], turns[|turns| - 1];
      var accepted := Accepted(count, before);
      accepted + if |accepted| - |Taken(count, before)| < 64 then NoticeAt(Play(count, before), t) else []
  }

  /** The server's own requests that were routed, in order. */
  function ServerRequests(count: nat, turns: seq<Turn>): seq<Id> {
    if turns == [] then []
    else
      var before, t := turns[..|turns| - 1], turns[|turns| - 1];
      ServerRequests(count, before) +
      match Routed(Play(count, before), t)
      case Some(ServerRequest(id)) => [id]
      case _ => []
  }

  /** What a turn does to the queue and to the rejections. */
  lemma StreamStep(s: System, t: Turn)
    ensures var q, after := s.shared.queue, Take(s, t).shared.queue;
            after == if TakesNotice(s, t) && q != [] then q[1..]
                     else if |q| < 64 then q + NoticeAt(s, t)
                     else q
    ensures Take(s, t).shared.rejected == s.shared.rejected +
            match Routed(s, t) { case Some(ServerRequest(id)) => [id] case _ => [] }
  {
    var i := t.request;
    if i < |s.requests| && Can(s, i, t.move) {
      if t.move.Dispatch? {
        DispatchStream(s, i);
      } else if t.move.ReadAndDispatch? {
        DispatchStream(Step(s, i, Read(t.move.incoming)), i);
      }
      hide DispatchHeld;
    }
  }

  lemma DispatchStream(s: System, i: nat)
    requires i < |s.requests| && s.requests[i].Holding?
    ensures DispatchHeld(s, i).shared == AfterRouting(s.shared, s.requests[i].id, s.requests[i].message)
  {
  }

  lemma AtMostOneNotice(s: System, t: Turn)
    ensures |NoticeAt(s, t)| <= 1 && (TakesNotice(s, t) ==> NoticeAt(s, t) == [])
  {
  }

  /** The oldest of a queue is moved to what was taken, or one more is put at its end if there is room. */
  lemma KeepsOrder(taken: seq<string>, queue: seq<string>, more: seq<string>, takes: bool)
    requires |queue| <= 64 && |more| <= 1 && (takes ==> more == [])
    ensures var gone := if takes && queue != [] then [queue[0]] else [];
            var left := if takes && queue != [] then queue[1..] else if |queue| < 64 then queue + more else queue;
            && |left| <= 64
            && (taken + gone) + left == (taken + queue) + if |queue| < 64 then more else []
  {
  }

  /** Notices leave the queue in the order they came, none twice; at most 64 wait in it. */
  lemma {:induction false} NoticesAreTakenInOrder(count: nat, turns: seq<Turn>)
    ensures Taken(count, turns) + Play(count, turns).shared.queue == Accepted(count, turns)
    ensures |Play(count, turns).shared.queue| <= 64
  {
    if turns != [] {
      hide Take, NoticeAt, TakesNotice;
      var before, t := turns[..|turns| - 1], turns[|turns| - 1];
      var s := Play(count, before);
      NoticesAreTakenInOrder(count, before);
      StreamStep(s, t);
      AtMostOneNotice(s, t);
      KeepsOrder(Taken(count, before), s.shared.queue, NoticeAt(s, t), TakesNotice(s, t));
    }
  }

  /** When nobody takes any, the queue holds the first 64. */
  lemma {:induction false} FirstNoticesAreKept(count: nat, turns: seq<Turn>)
    requires forall q :: 0 <= q < |turns| ==> !turns[q].move.TakeNotice?
    ensures var all := Notices(count, turns); Play(count, turns).shared.queue == all[..Min(64, |all|)]
  {
    if turns != [] {
      var before, t := turns[..|turns| - 1], turns[|turns| - 1];
      FirstNoticesAreKept(count, before);
      StreamStep(Play(count, before), t);
      hide Take;
    }
  }

  /** Every request of the server that is routed is rejected, once and in order, and nothing else is. */
  lemma {:induction false} ServerRequestsAreRejected(count: nat, turns: seq<Turn>)
    ensures Play(count, turns).shared.rejected == ServerRequests(count, turns)
  {
    if turns != [] {
      var before, t := turns[..|turns| - 1], turns[|turns| - 1];
      ServerRequestsAreRejected(count, before);
      StreamStep(Play(count, before), t);
      hide Take;
    }
  }

  /** A turn of a request that ends it with an error. */
  predicate Causes(m: Move, e: Error) {
    match e
    case TimedOut => m.TimeOut?
    case Transport => m.FailToSend? || m.FailToRead?
    case ChannelClosed => m.FindClosed?
  }

  /** The error a request ended with. */
  predicate FailedWith(r: Request, e: Error) {
    (r.Leaving? || r.Done?) && r.outcome == Err(e)
  }

  lemma FailedStep(s: System, t: Turn, j: nat, e: Error)
    requires j < |s.requests|
    ensures |Take(s, t).requests| == |s.requests|
    ensures FailedWith(Take(s, t).requests[j], e) ==>
              FailedWith(s.requests[j], e) || (t.request == j && Causes(t.move, e))
  {
    var i := t.request;
    if i < |s.requests| && Can(s, i, t.move) {
      if t.move.Dispatch? {
        DispatchFailsNobody(s, i, j, e);
      } else if t.move.ReadAndDispatch? {
        DispatchFailsNobody(Step(s, i, Read(t.move.incoming)), i, j, e);
      }
      hide DispatchHeld;
    }
  }

  lemma DispatchFailsNobody(s: System, i: nat, j: nat, e: Error)
    requires i < |s.requests| && s.requests[i].Holding? && j < |s.requests|
    ensures |DispatchHeld(s, i).requests| == |s.requests|
    ensures FailedWith(DispatchHeld(s, i).requests[j], e) ==> FailedWith(s.requests[j], e)
  {
  }

  /** A request fails with a timeout only after timing out, and with a transport error only after one. */
  lemma {:induction false} ErrorsTellWhy(count: nat, turns: seq<Turn>, j: nat, e: Error)
    requires j < count
    ensures |Play(count, turns).requests| == count
    ensures FailedWith(Play(count, turns).requests[j], e) ==>
              exists q :: 0 <= q < |turns| && turns[q].request == j && Causes(turns[q].move, e)
  {
    if turns != [] {
      var before, t := turns[..|turns| - 1], turns[|turns| - 1];
      ErrorsTellWhy(count, before, j, e);
      FailedStep(Play(count, before), t, j, e);
      hide Take;
      if q :| 0 <= q < |before| && before[q].request == j && Causes(before[q].move, e) {
        assert turns[q] == before[q];
      }
    }
  }
}
