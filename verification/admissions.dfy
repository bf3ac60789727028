// Admission over whole runs: the trace every member leaves, and requests that are answered once.
module Admissions {
  import opened Wrappers
  import opened RoomTypes
  import opened Members
  import opened Requests
  import opened Actor
  import opened ActorInvariants
  import opened ActorMoves
  import opened Runs
  import opened KeySeparation
  import opened Gate

  // ---- the trace of a member ----------------------------------------------------------------

  // Input `i` proved the password on connection `c`, which was registered by then.
  predicate ProvedAt(launch: Launch, inputs: seq<Input>, c: ConnectionId, i: nat) {
    i < |inputs| && inputs[i].event == PasswordVerified(c) && c in Run(launch, inputs[..i]).room.entries
  }

  // Input `j` put the application in the queue, under an open policy and with the password proved.
  predicate AskedAt(launch: Launch, inputs: seq<Input>, q: JoinRequest, j: nat) {
    && j < |inputs| && inputs[j].event == JoinRequested(q.connection, q.application)
    && Run(launch, inputs[..j]).room.policyOpen
  }

  // Input `k` accepted the queued request `q` while the room was open, and `m` came of it.
  predicate AcceptedAt(launch: Launch, inputs: seq<Input>, q: JoinRequest, m: Member, k: nat) {
    && k < |inputs| && Accepts(inputs[k].event, q.id) && AdmittedFrom(m, q)
    && var r := Run(launch, inputs[..k]).room;
       q in r.queue.requests && r.policyOpen && r.phase == Open
  }

  lemma StepFramed(launch: Launch, inputs: seq<Input>)
    requires LaunchOk(launch) && AllAdmissible(inputs) && inputs != []
    ensures var s := Run(launch, inputs[..|inputs| - 1]);
      AllAdmissible(inputs[..|inputs| - 1]) && RoomInv(s.room)
      && Run(launch, inputs).room == Handle(s.room, inputs[|inputs| - 1].event, inputs[|inputs| - 1].now).0
      && GateFrame(s.room, Run(launch, inputs).room, inputs[|inputs| - 1].event)
  {
    hide RunInv, GateFrame, Handle, RoomInv;
    RunHolds(launch, inputs[..|inputs| - 1]);
    RunRoom(Run(launch, inputs[..|inputs| - 1]));
    HandleFramed(Run(launch, inputs[..|inputs| - 1]).room, inputs[|inputs| - 1].event, inputs[|inputs| - 1].now);
  }

  lemma {:induction false} PasswordCameFirst(launch: Launch, inputs: seq<Input>, c: ConnectionId) returns (i: nat)
    requires LaunchOk(launch) && AllAdmissible(inputs) && Verified(Run(launch, inputs).room, c)
    ensures ProvedAt(launch, inputs, c, i)
    decreases |inputs|
  {
    hide QueuedFrom, MembersFrom, IdsFrom, RoomInv, Handle, Step;
    i := 0;
    if inputs == [] { NobodyVerifiedYet(launch, c); }
    else {
      StepFramed(launch, inputs);
      var before := inputs[..|inputs| - 1];
      if Verified(Run(launch, before).room, c) {
        i := PasswordCameFirst(launch, before, c);
        assert before[..i] == inputs[..i];
      } else {
        i := |before|;
      }
    }
  }

  lemma NobodyVerifiedYet(launch: Launch, c: ConnectionId)
    ensures !Verified(Launched(launch).room, c)
  {
  }

  lemma {:induction false} QueuedAfterPassword(launch: Launch, inputs: seq<Input>, q: JoinRequest)
    returns (i: nat, j: nat)
    requires LaunchOk(launch) && AllAdmissible(inputs) && q in Run(launch, inputs).room.queue.requests
    ensures i < j && ProvedAt(launch, inputs, q.connection, i) && AskedAt(launch, inputs, q, j)
    decreases |inputs|
  {
    hide VerifiedFrom, MembersFrom, IdsFrom, RoomInv, Handle, Step, Verified;
    i, j := 0, 0;
    if inputs == [] { NobodyQueuedYet(launch); }
    else {
      StepFramed(launch, inputs);
      var before := inputs[..|inputs| - 1];
      if q in Run(launch, before).room.queue.requests {
        i, j := QueuedAfterPassword(launch, before, q);
        assert before[..i] == inputs[..i] && before[..j] == inputs[..j];
      } else {
        j := |before|;
        i := PasswordCameFirst(launch, before, q.connection);
        assert before[..i] == inputs[..i];
      }
    }
  }

  lemma NobodyQueuedYet(launch: Launch)
    ensures Launched(launch).room.queue.requests == []
  {
  }

  // Every member but the host proved the password, asked, and was accepted, in that order, and
  // the host accepted while the policy was open; what it is known by is what it asked with.
  lemma {:induction false} MembersWereAdmitted(launch: Launch, inputs: seq<Input>, m: Member)
    returns (i: nat, j: nat, k: nat, q: JoinRequest)
    requires LaunchOk(launch) && AllAdmissible(inputs)
    requires m in Roster(Run(launch, inputs).room.table.members) && m.id != HOST_ID
    ensures i < j < k && ProvedAt(launch, inputs, m.connection, i)
      && AskedAt(launch, inputs, q, j) && AcceptedAt(launch, inputs, q, m, k)
    decreases |inputs|
  {
    hide VerifiedFrom, QueuedFrom, IdsFrom, RoomInv, Handle, Step, Verified, Roster;
    i, j, k := 0, 0, 0;
    q := JoinRequest(0, m.connection, Application(m.nickname, None, m.ed25519, m.x25519));
    if inputs == [] { OnlyTheHostYet(launch, m); }
    else {
      StepFramed(launch, inputs);
      var before := inputs[..|inputs| - 1];
      var r := Run(launch, before).room;
      if m in Roster(r.table.members) {
        i, j, k, q := MembersWereAdmitted(launch, before, m);
        assert before[..i] == inputs[..i] && before[..j] == inputs[..j] && before[..k] == inputs[..k];
      } else {
        k := |before|;
        assert EnteredBy(r, inputs[k].event, m);
        var n :| 0 <= n < |r.queue.requests| && Accepts(inputs[k].event, r.queue.requests[n].id) &&
          AdmittedFrom(m, r.queue.requests[n]);
        q := r.queue.requests[n];
        i, j := QueuedAfterPassword(launch, before, q);
        assert before[..i] == inputs[..i] && before[..j] == inputs[..j];
      }
    }
  }

  lemma OnlyTheHostYet(launch: Launch, m: Member)
    requires m in Roster(Launched(launch).room.table.members)
    ensures m.id == HOST_ID
  {
  }

  // ---- requests ---------------------------------------------------------------------------------

  predicate Answers(event: Event, id: RequestId) {
    Accepts(event, id) || event == HostRejected(id) || event == OnHostCommand(Reject(id))
  }

  lemma {:induction false} SettledForGood(launch: Launch, inputs: seq<Input>, more: seq<Input>, id: RequestId)
    requires LaunchOk(launch) && AllAdmissible(inputs + more)
    requires id < Run(launch, inputs).room.queue.nextId && !OpenRequest(Run(launch, inputs).room, id)
    ensures var r := Run(launch, inputs + more).room; id < r.queue.nextId && !OpenRequest(r, id)
    decreases |more|
  {
    hide VerifiedFrom, QueuedFrom, MembersFrom, RoomInv, Handle, Step, OpenRequest;
    if more == [] { assert inputs + more == inputs; }
    else {
      var before := more[..|more| - 1];
      assert (inputs + more)[..|inputs + more| - 1] == inputs + before;
      StepFramed(launch, inputs + more);
      SettledForGood(launch, inputs, before, id);
    }
  }

  lemma PositionsAreOpen(r: Room, id: RequestId)
    ensures OpenRequest(r, id) <==>
      PositionOfTimeout(r.timeouts, id).Some? || PositionOfRequest(r.queue.requests, id).Some?
  {
  }

  // Whichever way the host answers a request, it answers an open one, and closes it.
  lemma {:induction false} AnswerCloses(r: Room, id: RequestId)
    requires RoomInv(r) && r.phase != Destroyed
    ensures OnAccept(r, id).1.Ok? ==> OpenRequest(r, id) && !OpenRequest(OnAccept(r, id).0, id)
    ensures OnReject(r, id).1.Ok? ==> OpenRequest(r, id) && !OpenRequest(OnReject(r, id).0, id)
    ensures OnAccept(r, id).0.queue.nextId == r.queue.nextId == OnReject(r, id).0.queue.nextId
    ensures OpenRequest(r, id) ==> id < r.queue.nextId
  {
    hide TableInv, LinkInv, LimitsInv, MarksInv, PendingInv, OpenRequest, SendAll, WrapAll;
    PositionsAreOpen(r, id);
    var t := PositionOfTimeout(r.timeouts, id);
    var p := PositionOfRequest(r.queue.requests, id);
    if t.Some? { TimeoutGone(r, t.value); }
    else if p.Some? {
      RequestGone(r, p.value);
      AdmitQueue(r.(queue := TakeAt(r.queue, p.value)), r.queue.requests[p.value]);
      SameOpen(r.(queue := TakeAt(r.queue, p.value)), OnAccept(r, id).0, id);
      SameOpen(r.(queue := TakeAt(r.queue, p.value)), OnReject(r, id).0, id);
    }
  }

  lemma SameOpen(a: Room, b: Room, id: RequestId)
    requires a.queue == b.queue && a.timeouts == b.timeouts
    ensures OpenRequest(a, id) == OpenRequest(b, id)
  {
  }

  lemma AdmitQueue(r: Room, q: JoinRequest)
    ensures Admit(r, q).0.queue == r.queue && Admit(r, q).0.timeouts == r.timeouts
  {
    hide SendAll, WrapAll;
  }

  lemma TimeoutGone(r: Room, i: nat)
    requires RoomInv(r) && i < |r.timeouts|
    ensures !OpenRequest(WithoutTimeout(r, i), r.timeouts[i].id)
  {
    hide TableInv, LinkInv, LimitsInv, MarksInv, EpochInv;
    var rest := WithoutTimeout(r, i).timeouts;
    assert forall k :: 0 <= k < |rest| ==> rest[k] == r.timeouts[if k < i then k else k + 1];
  }

  lemma RequestGone(r: Room, i: nat)
    requires RoomInv(r) && i < |r.queue.requests|
    ensures !OpenRequest(r.(queue := TakeAt(r.queue, i)), r.queue.requests[i].id)
  {
    hide TableInv, LinkInv, LimitsInv, MarksInv, EpochInv;
    var rest := TakeAt(r.queue, i).requests;
    assert forall k :: 0 <= k < |rest| ==> rest[k] == r.queue.requests[if k < i then k else k + 1];
  }

  lemma AnswerHandled(r: Room, event: Event, id: RequestId, now: Time)
    requires Answers(event, id)
    ensures r.phase == Destroyed || r.phase == EpochTransition ==> Handle(r, event, now).1.Err?
    ensures r.phase != Destroyed && r.phase != EpochTransition ==>
      Handle(r, event, now) == if Accepts(event, id) then OnAccept(r.(now := now), id) else OnReject(r.(now := now), id)
  {
    hide OnAccept, OnReject;
  }

  lemma AnswerHandledCloses(r: Room, event: Event, id: RequestId, now: Time)
    requires RoomInv(r) && Answers(event, id)
    ensures var (r', reply) := Handle(r, event, now);
      && (reply.Ok? ==> OpenRequest(r, id) && !OpenRequest(r', id) && id < r'.queue.nextId)
  {
    hide RoomInv, OnAccept, OnReject, OpenRequest, Handle;
    RoomAt(r, now);
    AnswerHandled(r, event, id, now);
    SameOpen(r, r.(now := now), id);
    if r.phase != Destroyed { AnswerCloses(r.(now := now), id); }
  }

  // A request is accepted or rejected at most once in a run, and one that was withdrawn never:
  // join and timeout requests share one id space, and no id comes back.
  lemma {:induction false} AnsweredAtMostOnce(launch: Launch, inputs: seq<Input>, first: Input, more: seq<Input>,
    second: Input, id: RequestId)
    requires LaunchOk(launch) && AllAdmissible(inputs + [first] + more)
    requires Answers(first.event, id) && Answers(second.event, id)
    requires Handle(Run(launch, inputs).room, first.event, first.now).1.Ok?
    ensures Handle(Run(launch, inputs + [first] + more).room, second.event, second.now).1.Err?
  {
    hide RunInv, RoomInv, Handle, OpenRequest, Launched;
    assert inputs + [first] + more == inputs + ([first] + more);
    PrefixAdmissible(inputs + [first], more);
    PrefixAdmissible(inputs, [first]);
    RunHolds(launch, inputs);
    RunRoom(Run(launch, inputs));
    AnswerHandledCloses(Run(launch, inputs).room, first.event, id, first.now);
    assert (inputs + [first])[..|inputs|] == inputs;
    SettledForGood(launch, inputs + [first], more, id);
    RunHolds(launch, inputs + [first] + more);
    RunRoom(Run(launch, inputs + [first] + more));
    AnswerHandledCloses(Run(launch, inputs + [first] + more).room, second.event, id, second.now);
  }

  // ---- the number of requests ---------------------------------------------------------------------

  function Waiting(r: Room): nat { |r.queue.requests| + |r.timeouts| }

  predicate MayJoin(r: Room, c: ConnectionId) {
    r.policyOpen && Verified(r, c) && r.entries[c].role.InAdmission? && |r.queue.requests| < r.queue.limit
  }

  // The documented cap on join and timeout requests together holds of timeout requests, which
  // look at both; a join request looks at its own list only and breaks the cap exactly when the
  // two lists fill it already.
  lemma {:induction false} CombinedCapExactly(r: Room, c: ConnectionId, a: Application, e: Envelope, p: Plaintext)
    requires Waiting(r) <= r.queue.limit
    ensures Waiting(AskForTimeout(r, c, e, p).0) <= r.queue.limit
    ensures Waiting(OnJoinRequested(r, c, a).0) <= r.queue.limit <==> !(MayJoin(r, c) && Waiting(r) == r.queue.limit)
  {
  }

  // ---- the state of the gate ----------------------------------------------------------------------

  // In every run: member roles and table entries, pending roles and queued requests pair up
  // one to one, so accepting never finds the connection taken; ids, nicknames, connections and
  // keys are distinct; the host stays first and alone; a locked room has nobody waiting.
  lemma {:induction false} GateIsConsistent(launch: Launch, inputs: seq<Input>)
    requires LaunchOk(launch) && AllAdmissible(inputs)
    ensures var r := Run(launch, inputs).room;
      && TableInv(r.table, r.hostConnection) && r.table.limit <= MAX_MEMBERS
      && LinkInv(r.table.members, r.entries, r.queue.requests)
      && QueueInv(r.queue, r.timeouts, r.policyOpen)
      && LimitsInv(r.limits, r.table.members)
    ensures var r := Run(launch, inputs).room;
      forall i :: 0 <= i < |r.queue.requests| ==>
        AddMember(r.table, r.queue.requests[i].connection, r.queue.requests[i].application, r.epoch + 1) !=
          Err(ConnectionTaken)
  {
    hide Run, MarksInv, EpochInv, TableInv, QueueInv, LimitsInv, LinkInv, AddMember, RunInv, RoomInv;
    RunHolds(launch, inputs);
    RunRoom(Run(launch, inputs));
    var r := Run(launch, inputs).room;
    RosterOf(r);
    forall i | 0 <= i < |r.queue.requests|
      ensures AddMember(r.table, r.queue.requests[i].connection, r.queue.requests[i].application, r.epoch + 1) !=
        Err(ConnectionTaken) {
      QueuedIsNoMember(r, i, r.queue.requests[i].application, r.epoch + 1);
    }
  }

  lemma RosterOf(r: Room)
    requires RoomInv(r)
    ensures RosterInv(r)
  {
  }

  lemma QueuedIsNoMember(r: Room, i: nat, a: Application, epoch: nat)
    requires RosterInv(r) && i < |r.queue.requests|
    ensures PositionOfConnection(r.table.members, r.queue.requests[i].connection).None?
    ensures AddMember(r.table, r.queue.requests[i].connection, a, epoch) != Err(ConnectionTaken)
  {
    hide TableInv, QueueInv, LimitsInv, HasMember, HasRequest;
    assert r.entries[r.queue.requests[i].connection].role.AwaitingDecision?;
    forall k | 0 <= k < |r.table.members| ensures r.table.members[k].connection != r.queue.requests[i].connection {
      assert r.entries[r.table.members[k].connection].role.ActiveMember?;
    }
  }
}
