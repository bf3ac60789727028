// The bounded join-request queue and the request-id allocator it shares with timeout
// requests (src/admission/queue.rs).
module Requests {
  import opened Wrappers
  import opened RoomTypes

  datatype Queue = Queue(limit: nat, nextId: RequestId, requests: seq<JoinRequest>)

  function Push(q: Queue, c: ConnectionId, a: Application): Option<(Queue, RequestId)> {
    if |q.requests| >= q.limit then None
    else Some((q.(nextId := q.nextId + 1, requests := q.requests + [JoinRequest(q.nextId, c, a)]), q.nextId))
  }

  function PositionOfRequest(requests: seq<JoinRequest>, id: RequestId): (p: Option<nat>)
    ensures p.Some? ==> p.value < |requests| && requests[p.value].id == id
    ensures p.None? ==> forall i :: 0 <= i < |requests| ==> requests[i].id != id
  {
    if requests == [] then None else
      match PositionOfRequest(requests[..|requests| - 1], id)
      case Some(i) => Some(i)
      case None =>
        if requests[|requests| - 1].id == id then Some(|requests| - 1) else None
  }

  function TakeAt(q: Queue, i: nat): (rest: Queue)
    requires i < |q.requests|
  {
    q.(requests := q.requests[..i] + q.requests[i + 1..])
  }

  class JoinRequestQueue {
    const limit: nat
    var nextId: RequestId
    var requests: seq<JoinRequest>

    function State(): Queue
      reads this
    {
      Queue(limit, nextId, requests)
    }

    constructor (limit: nat)
      ensures State() == Queue(limit, 0, [])
    {
      this.limit := limit;
      nextId := 0;
      requests := [];
    }

    method AllocateId() returns (id: RequestId)
      modifies this
      ensures id == old(nextId) && State() == old(State()).(nextId := id + 1)
    {
      id := nextId;
      nextId := nextId + 1;
    }

    // None when the queue is full.
    method Submit(c: ConnectionId, a: Application) returns (id: Option<RequestId>)
      modifies this
      ensures match Push(old(State()), c, a)
        case None => id == None && State() == old(State())
        case Some((q, newId)) => id == Some(newId) && State() == q
    {
      if |requests| >= limit { return None; }
      var newId := AllocateId();
      requests := requests + [JoinRequest(newId, c, a)];
      return Some(newId);
    }

    method Take(id: RequestId) returns (taken: Option<JoinRequest>)
      modifies this
      ensures match PositionOfRequest(old(requests), id)
        case None => taken == None && State() == old(State())
        case Some(i) => taken == Some(old(requests)[i]) && State() == TakeAt(old(State()), i)
    {
      match PositionOfRequest(requests, id)
      case None => return None;
      case Some(i) =>
        taken := Some(requests[i]);
        requests := requests[..i] + requests[i + 1..];
    }

    method Drain() returns (all: seq<JoinRequest>)
      modifies this
      ensures all == old(requests) && State() == old(State()).(requests := [])
    {
      all := requests;
      requests := [];
    }
  }
}
