/**
 * Matching responses to requests (crates/agentverify-mcp/src/client.rs). Any number of requests share a
 * counter, a table of pending slots and one stream of incoming messages, which whichever request reads
 * it next hands on to its owner.
 */
module Correlator {
  import opened Common

  /** The id of a message: an unsigned integer, or any other JSON value. */
  datatype Id = Number(n: nat) | Other(json: string)

  datatype Response = Response(id: Id, body: string)

  datatype Message = Reply(response: Response) | Notice(body: string) | ServerRequest(id: Id)

  const QUEUE_CAPACITY: nat := 64

  /** What the requests share. A pending slot belongs to a request, known by its number. */
  datatype Shared = Shared(next: nat, pending: map<nat, nat>, queue: seq<string>, rejected: seq<Id>)

  const FRESH: Shared := Shared(1, map[], [], [])

  function TakePending(s: Shared, id: nat): Shared {
    s.(pending := s.pending - {id})
  }

  /** Where a message goes that a request has read: to itself, to the slot of another, or nowhere. */
  datatype Route = Mine(response: Response) | Handed(slot: nat, response: Response) | Consumed

  function RouteOf(s: Shared, expected: nat, m: Message): Route {
    match m
    case Reply(r) =>
      if r.id == Number(expected) then Mine(r)
      else if r.id.Number? && r.id.n in s.pending then Handed(s.pending[r.id.n], r)
      else Consumed
    case Notice(_) => Consumed
    case ServerRequest(_) => Consumed
  }

  function AfterRouting(s: Shared, expected: nat, m: Message): Shared {
    match m
    case Reply(r) => if r.id != Number(expected) && r.id.Number? then TakePending(s, r.id.n) else s
    case Notice(body) => if |s.queue| < QUEUE_CAPACITY then s.(queue := s.queue + [body]) else s
    case ServerRequest(id) => s.(rejected := s.rejected + [id])
  }

  /** The oldest notice is taken off the queue, if there is one. */
  function AfterTaking(s: Shared): Shared {
    if s.queue == [] then s else s.(queue := s.queue[1..])
  }

  /** The client's shared fields, updated in place. */
  class Client {
    var nextRequestId: nat
    var pending: map<nat, nat>
    var notifications: seq<string>
    var rejected: seq<Id>

    constructor ()
      ensures Value() == FRESH
    {
      nextRequestId, pending, notifications, rejected := 1, map[], [], [];
    }

    function Value(): Shared
      reads this
    {
      Shared(nextRequestId, pending, notifications, rejected)
    }

    method AllocateId() returns (id: nat)
      modifies this`nextRequestId
      ensures id == old(nextRequestId) && Value() == old(Value()).(next := id + 1)
    {
      id := nextRequestId;
      nextRequestId := nextRequestId + 1;
    }

    method Register(id: nat, slot: nat)
      modifies this`pending
      ensures Value() == old(Value()).(pending := old(pending)[id := slot])
    {
      pending := pending[id := slot];
    }

    method TakeSlot(id: nat) returns (slot: Option<nat>)
      modifies this`pending
      ensures Value() == TakePending(old(Value()), id)
      ensures slot == if id in old(pending) then Some(old(pending)[id]) else None
    {
      slot := if id in pending then Some(pending[id]) else None;
      pending := pending - {id};
    }

    method Dispatch(m: Message, expected: nat) returns (route: Route)
      modifies this
      ensures route == RouteOf(old(Value()), expected, m) && Value() == AfterRouting(old(Value()), expected, m)
    {
      match m
      case Reply(r) =>
        if r.id == Number(expected) {
          return Mine(r);
        }
        if r.id.Other? {
          return Consumed;
        }
        var slot := TakeSlot(r.id.n);
        route := if slot.Some? then Handed(slot.value, r) else Consumed;
      case Notice(body) =>
        if |notifications| < QUEUE_CAPACITY {
          notifications := notifications + [body];
        }
        route := Consumed;
      case ServerRequest(id) =>
        rejected := rejected + [id];
        route := Consumed;
    }

    method NextNotification() returns (notice: Option<string>)
      modifies this`notifications
      ensures notice == (if old(notifications) == [] then None else Some(old(notifications)[0]))
      ensures Value() == AfterTaking(old(Value()))
    {
      if notifications == [] {
        return None;
      }
      notice := Some(notifications[0]);
      notifications := notifications[1..];
    }
  }

  datatype Error = Transport | TimedOut | ChannelClosed

  /** Where a request stands. The inbox is its end of the one-shot channel in its pending slot. */
  datatype Request =
    | Starting
    | Numbered(id: nat)
    | Sending(id: nat, inbox: Option<Response>)
    | Waiting(id: nat, inbox: Option<Response>)
    | Holding(id: nat, inbox: Option<Response>, message: Message)
    | Leaving(id: nat, outcome: Result<Response, Error>)
    | Done(id: nat, outcome: Result<Response, Error>)
    | Dropped(was: Option<nat>)

  /** The moves of a request, and one that is anybody's: to take a notice off the queue. */
  datatype Move =
    | Allocate
    | Register
    | Send
    | FailToSend
    | Collect
    | FindClosed
    | Read(message: Message)
    | FailToRead
    | Dispatch
    | ReadAndDispatch(incoming: Message)
    | TimeOut
    | Leave
    | Drop
    | TakeNotice

  datatype System = System(shared: Shared, requests: seq<Request>)

  predicate Listening(r: Request) {
    r.Sending? || r.Waiting? || r.Holding?
  }

  /** May a request make a move? */
  predicate Can(s: System, i: nat, m: Move)
    requires i < |s.requests|
  {
    var r := s.requests[i];
    match m
    case Allocate => r.Starting?
    case Register => r.Numbered?
    case Send => r.Sending?
    case FailToSend => r.Sending?
    case Collect => r.Waiting? && r.inbox.Some?
    case FindClosed => r.Waiting? && r.inbox.None? && r.id !in s.shared.pending
    case Read(_) => r.Waiting?
    case FailToRead => r.Waiting?
    case Dispatch => r.Holding?
    case ReadAndDispatch(_) => r.Waiting?
    case TimeOut => r.Waiting? || r.Holding?
    case Leave => r.Leaving?
    case Drop => !r.Done? && !r.Dropped?
    case TakeNotice => true
  }

  function Become(s: System, i: nat, r: Request): System
    requires i < |s.requests|
  {
    s.(requests := s.requests[i := r])
  }

  /** Put a response into the channel of a slot; it is lost if its request no longer listens. */
  function Post(s: System, slot: nat, response: Response): System {
    if slot < |s.requests| && Listening(s.requests[slot]) then
      Become(s, slot, s.requests[slot].(inbox := Some(response)))
    else s
  }

  function DispatchHeld(s: System, i: nat): System
    requires i < |s.requests| && s.requests[i].Holding?
  {
    var r := s.requests[i];
    var routed := s.(shared := AfterRouting(s.shared, r.id, r.message));
    match RouteOf(s.shared, r.id, r.message)
    case Mine(response) => Become(routed, i, Leaving(r.id, Ok(response)))
    case Handed(slot, response) => Post(Become(routed, i, Waiting(r.id, r.inbox)), slot, response)
    case Consumed => Become(routed, i, Waiting(r.id, r.inbox))
  }

  function IdOf(r: Request): Option<nat> {
    match r
    case Starting => None
    case Dropped(was) => was
    case _ => Some(r.id)
  }

  function Step(s: System, i: nat, m: Move): System
    requires i < |s.requests| && Can(s, i, m)
  {
    var r := s.requests[i];
    match m
    case Allocate => Become(s.(shared := s.shared.(next := s.shared.next + 1)), i, Numbered(s.shared.next))
    case Register => Become(s.(shared := s.shared.(pending := s.shared.pending[r.id := i])), i, Sending(r.id, None))
    case Send => Become(s, i, Waiting(r.id, r.inbox))
    case FailToSend => Become(s, i, Leaving(r.id, Err(Transport)))
    case Collect => Become(s, i, Leaving(r.id, Ok(r.inbox.value)))
    case FindClosed => Become(s, i, Leaving(r.id, Err(ChannelClosed)))
    case Read(message) => Become(s, i, Holding(r.id, r.inbox, message))
    case FailToRead => Become(s, i, Leaving(r.id, Err(Transport)))
    case Dispatch => DispatchHeld(s, i)
    case ReadAndDispatch(message) => DispatchHeld(Become(s, i, Holding(r.id, r.inbox, message)), i)
    case TimeOut => Become(s, i, Leaving(r.id, Err(TimedOut)))
    case Leave => Become(s.(shared := TakePending(s.shared, r.id)), i, Done(r.id, r.outcome))
    case Drop => Become(s, i, Dropped(IdOf(r)))
    case TakeNotice => s.(shared := AfterTaking(s.shared))
  }

  /** A request and the move it makes; one that it cannot make does nothing. */
  datatype Turn = Turn(request: nat, move: Move)

  function Take(s: System, t: Turn): System {
    if t.request < |s.requests| && Can(s, t.request, t.move) then Step(s, t.request, t.move) else s
  }

  function Start(count: nat): System {
    System(FRESH, seq(count, _ => Starting))
  }

  function Play(count: nat, turns: seq<Turn>): System {
    if turns == [] then Start(count) else Take(Play(count, turns[..|turns| - 1]), turns[|turns| - 1])
  }
}
