// Who waits at the gate and what an answer does, told by the event alone: how a request gets into
// the queue, what takes it out, and who is let in.
module Answers {
  import opened Wrappers
  import opened RoomTypes
  import opened Members
  import opened Registry
  import opened Requests
  import opened Actor
  import opened ActorInvariants
  import opened ActorMoves
  import opened MemberViews
  import opened Gate
  import opened Departures
  import opened Commands

  // ---- the queue ---------------------------------------------------------------------------------

  predicate Rejects(event: Event, id: RequestId) {
    event == HostRejected(id) || event == OnHostCommand(Reject(id))
  }

  // The event ends the request: an answer, a new invitation, a locked room, or a lost connection.
  predicate Settles(r: Room, event: Event, q: JoinRequest) {
    || (Quiescent(r) && (Accepts(event, q.id) || Rejects(event, q.id) || event == OnHostCommand(NewId)))
    || Locks(r, event) || (Drops(r, event, q.connection) && q.connection != r.hostConnection)
  }

  predicate MayApply(r: Room, c: ConnectionId) {
    && Quiescent(r) && r.policyOpen && Verified(r, c) && r.entries[c].role.InAdmission?
    && |r.queue.requests| < r.queue.limit
  }

  predicate Applies(r: Room, event: Event, q: JoinRequest) {
    event == JoinRequested(q.connection, q.application) && MayApply(r, q.connection) && q.id == r.queue.nextId
  }

  ghost predicate QueueOutcome(r: Room, event: Event, r': Room) {
    forall q :: q in r'.queue.requests <==> (q in r.queue.requests && !Settles(r, event, q)) || Applies(r, event, q)
  }

  lemma IdsIncrease(r: Room)
    requires RoomInv(r)
    ensures forall i, j :: 0 <= i < j < |r.queue.requests| ==> r.queue.requests[i].id < r.queue.requests[j].id
    ensures forall i, j :: 0 <= i < j < |r.timeouts| ==> r.timeouts[i].id < r.timeouts[j].id
  {
    hide TableInv, LinkInv, LimitsInv, MarksInv, EpochInv;
  }

  // What is left without the element at an index.
  lemma LeftWithout<T>(s: seq<T>, i: nat, x: T)
    requires i < |s|
    ensures x in s[..i] + s[i + 1..] <==> exists k :: 0 <= k < |s| && k != i && s[k] == x
  {
    var rest := s[..i] + s[i + 1..];
    if x in rest {
      var k :| 0 <= k < |rest| && rest[k] == x;
      assert s[if k < i then k else k + 1] == x;
    }
    if k :| 0 <= k < |s| && k != i && s[k] == x { assert rest[if k < i then k else k - 1] == x; }
  }

  lemma TakenMembers(r: Room, i: nat)
    requires RoomInv(r) && i < |r.queue.requests|
    ensures forall q :: q in TakeAt(r.queue, i).requests <==> q in r.queue.requests && q.id != r.queue.requests[i].id
  {
    hide RoomInv;
    var before := r.queue.requests;
    forall q ensures q in TakeAt(r.queue, i).requests <==> q in before && q.id != before[i].id {
      IdsIncrease(r);
      LeftWithout(before, i, q);
    }
  }

  // The request with an id is where the search finds it.
  lemma QueuedAt(r: Room, id: RequestId)
    requires RoomInv(r)
    ensures PositionOfTimeout(r.timeouts, id).Some? ==> forall q :: q in r.queue.requests ==> q.id != id
    ensures PositionOfRequest(r.queue.requests, id).None? ==> forall q :: q in r.queue.requests ==> q.id != id
    ensures forall q :: q in r.queue.requests && q.id == id ==>
      PositionOfTimeout(r.timeouts, id).None? && PositionOfRequest(r.queue.requests, id).Some?
      && PositionOfRequest(r.queue.requests, id).value < |r.queue.requests|
      && r.queue.requests[PositionOfRequest(r.queue.requests, id).value] == q
  {
    hide TableInv, LinkInv, LimitsInv, MarksInv, EpochInv;
  }

  lemma AdmitQueue(r: Room, q: JoinRequest)
    ensures Admit(r, q).0.queue == r.queue
  {
    hide SendAll, WrapAll, IdsOf, AddMember;
  }

  lemma AnswerQueue(r: Room, event: Event, id: RequestId)
    requires RoomInv(r) && Quiescent(r) && (Accepts(event, id) || Rejects(event, id))
    ensures QueueOutcome(r, event, if Accepts(event, id) then OnAccept(r, id).0 else OnReject(r, id).0)
  {
    hide RoomInv, Admit, TakeAt;
    QueuedAt(r, id);
    var i := PositionOfRequest(r.queue.requests, id);
    if i.Some? {
      TakenMembers(r, i.value);
      AdmitQueue(r.(queue := TakeAt(r.queue, i.value)), r.queue.requests[i.value]);
    }
  }

  // The request of a connection is the one that its role names.
  lemma RequestBehind(r: Room, c: ConnectionId)
    requires RoomInv(r)
    ensures forall q :: q in r.queue.requests && q.connection == c ==> RequestOf(r.entries, c) == Some(q.id)
    ensures RequestOf(r.entries, c).Some? ==>
      MemberOf(r.entries, c).None? && PositionOfConnection(r.table.members, c).None?
    ensures MemberOf(r.entries, c).Some? ==> forall q :: q in r.queue.requests ==> q.connection != c
    ensures MemberOf(r.entries, c).None? ==> PositionOfConnection(r.table.members, c).None?
    ensures RequestOf(r.entries, c).Some? ==>
      var p := PositionOfRequest(r.queue.requests, RequestOf(r.entries, c).value);
      p.Some? && p.value < |r.queue.requests| && r.queue.requests[p.value].connection == c
  {
    hide TableInv, LimitsInv, MarksInv, EpochInv;
    if RequestOf(r.entries, c).Some? { QueuedRequestOf(r, c); }
  }

  lemma LostQueue(r: Room, event: Event, c: ConnectionId)
    requires RoomInv(r) && r.phase != Destroyed && (event.ConnectionLost? || event.TimeoutExpired?) &&
      Drops(r, event, c)
    ensures QueueOutcome(r, event, OnConnectionLost(r, c).0)
  {
    hide RoomInv, TakeAt, TimeoutsNotOf, RejectTimeoutsOf, RemoveMember;
    RequestBehind(r, c);
    var id := RequestOf(r.entries, c);
    if id.Some? {
      QueuedAt(r, id.value);
      TakenMembers(r, PositionOfRequest(r.queue.requests, id.value).value);
    } else if MemberOf(r.entries, c).Some? {
      RemovalQueue(r.(timeouts := TimeoutsNotOf(r.timeouts, c)), MemberOf(r.entries, c).value, false);
    }
  }

  lemma PushQueue(r: Room, c: ConnectionId, a: Application)
    requires RoomInv(r) && Quiescent(r)
    ensures QueueOutcome(r, JoinRequested(c, a), OnJoinRequested(r, c, a).0)
  {
    hide RoomInv;
  }

  lemma ClosedQueue(r: Room, event: Event)
    requires RoomInv(r) && Quiescent(r) && (event == OnHostCommand(NewId) || Locks(r, event))
    ensures QueueOutcome(r, event, HandleSettled(r, event).0)
  {
    hide RoomInv, SendAll, ConnectionsOf, WithdrawAll, NonMembers;
  }

  // What chat, departures and acknowledgements do not touch.
  lemma QueueKept(r: Room, event: Event)
    requires RoomInv(r) && r.phase != Destroyed
    requires !(Quiescent(r) &&
      (event.HostAccepted? || event.HostRejected? || event.JoinRequested? || event.OnHostCommand?))
    requires !event.ConnectionLost? && !event.TimeoutExpired?
    ensures var r' := if r.phase == EpochTransition then HandleInTransition(r, event).0 else HandleSettled(r, event).0;
      r'.queue.requests == r.queue.requests
  {
    hide RoomInv, OnEpochTimeout, OnChatReceived, OnLeave, OnMemberDeparted, Recolored, Resolve;
    SettledOrNot(r);
    DeadlineQueue(r);
    if event.ChatReceived? { ChatQueue(r, event.connection, event.kind, event.envelope); }
    if event.MemberDeparted? { RemovalQueue(r, event.member, false); DepartedQueue(r, event.member); }
    if event.OnMemberCommand? { LeaveQueue(r, event.connection); RecoloredQueue(r); }
  }

  lemma RecoloredQueue(r: Room)
    ensures forall id, color :: Recolored(r, id, color).queue == r.queue
  {
  }

  lemma RemovalQueue(r: Room, id: MemberId, kicked: bool)
    ensures RemoveMember(r, id, kicked).Some? ==> RemoveMember(r, id, kicked).value.0.queue == r.queue
  {
    hide SendAll, WrapAll, IdsOf, Without;
  }

  lemma DepartedQueue(r: Room, id: MemberId)
    ensures OnMemberDeparted(r, id).0.queue == r.queue
  {
    hide RemoveMember;
    RemovalQueue(r, id, false);
  }

  lemma LeaveQueue(r: Room, c: ConnectionId)
    ensures OnLeave(r, c).0.queue == r.queue
  {
    hide RemoveMember;
    if MemberOf(r.entries, c).Some? { RemovalQueue(r, MemberOf(r.entries, c).value, false); }
  }

  lemma DeadlineQueue(r: Room)
    requires RoomInv(r)
    ensures OnEpochTimeout(r).0.queue == r.queue
  {
    hide RosterInv, EvictAll, QueueAllGone, WrapAll, IdsOf;
    if r.pending.Some? && HOST_ID !in r.pending.value.awaiting {
      SameRoster(r, r.(pending := None));
      EvictKeeps(r.(pending := None), r.pending.value.awaiting);
      var (r1, _, removed) := EvictAll(r.(pending := None), r.pending.value.awaiting);
      QueueAllGoneFrame(BeginEpochTransition(r1).0, removed, false);
    }
  }

  lemma ChatQueue(r: Room, c: ConnectionId, kind: nat, e: Envelope)
    ensures OnChatReceived(r, c, kind, e).0.queue.requests == r.queue.requests
  {
    hide RemoveMember, Recolored, SendAll, ChatPlaintext;
    var bucket := r.(limits := r.limits[e.sender := RateLimit.Allow(BucketOf(r, e.sender), r.now).0]);
    RemovalQueue(bucket, e.sender, true);
    RecoloredQueue(r.(replay := Replay.Accepted(r.replay, e.sender, r.epoch, e.sequence)));
    RecoloredQueue(bucket.(replay := Replay.Accepted(r.replay, e.sender, r.epoch, e.sequence)));
  }

  // Any event in any room that is not closed: who waits afterwards.
  lemma {:induction false} QueueExactly(r: Room, event: Event, now: Time)
    requires RoomInv(r) && r.phase != Destroyed
    ensures QueueOutcome(r, event, Handle(r, event, now).0)
  {
    hide RoomInv, QueueOutcome, OnConnectionLost, OnAccept, OnReject, OnJoinRequested;
    var at := r.(now := now);
    RoomAt(r, now);
    SettledOrNot(r);
    DeadlineQueue(at);
    if (event.ConnectionLost? || event.TimeoutExpired?) && !ChecksDeadline(r, event) {
      LostQueue(at, event, event.connection);
    }
    else if Quiescent(r) && event.HostAccepted? { AnswerQueue(at, event, event.request); }
    else if Quiescent(r) && event.HostRejected? { AnswerQueue(at, event, event.request); }
    else if Quiescent(r) && event.JoinRequested? { PushQueue(at, event.connection, event.application); }
    else if Quiescent(r) && event.OnHostCommand? { CommandQueue(at, event); }
    else if event.TimeoutExpired? { SameQueue(at, event, Handle(r, event, now).0); }
    else { QueueKept(at, event); SameQueue(at, event, Handle(r, event, now).0); }
    QueueFrom(r, at, event, Handle(r, event, now).0);
  }

  lemma CommandQueue(r: Room, event: Event)
    requires RoomInv(r) && Quiescent(r) && event.OnHostCommand?
    ensures QueueOutcome(r, event, HandleSettled(r, event).0)
  {
    hide RoomInv, QueueOutcome, OnAccept, OnReject, OnKick;
    match event.hostCommand
    case Accept(id) => AnswerQueue(r, event, id);
    case Reject(id) => AnswerQueue(r, event, id);
    case NewId => ClosedQueue(r, event);
    case ReqOff => ClosedQueue(r, event);
    case Kick(target) => KickQueue(r, target); SameQueue(r, event, HandleSettled(r, event).0);
    case ReqOn => SameQueue(r, event, HandleSettled(r, event).0);
    case Requests => SameQueue(r, event, HandleSettled(r, event).0);
  }

  lemma KickQueue(r: Room, target: MemberRef)
    ensures OnKick(r, target).0.queue == r.queue
  {
    hide RemoveMember, Resolve;
    var found := Resolve(r, target);
    if found.Ok? && found.value < |r.table.members| { RemovalQueue(r, r.table.members[found.value].id, true); }
  }

  lemma SameQueue(r: Room, event: Event, r': Room)
    requires r'.queue.requests == r.queue.requests && !Locks(r, event)
    requires Quiescent(r) ==>
      !event.JoinRequested? && !event.HostAccepted? && !event.HostRejected? && (event.OnHostCommand? ==>
        !event.hostCommand.Accept? && !event.hostCommand.Reject? && !event.hostCommand.NewId?)
    requires forall c :: !Drops(r, event, c)
    ensures QueueOutcome(r, event, r')
  {
  }

  lemma QueueFrom(r: Room, at: Room, event: Event, r': Room)
    requires QueueOutcome(at, event, r') && at == r.(now := at.now)
    ensures QueueOutcome(r, event, r')
  {
    forall q ensures Settles(r, event, q) == Settles(at, event, q) && Applies(r, event, q) == Applies(at, event, q) {}
  }

  // ---- applying ----------------------------------------------------------------------------------------

  // An application is taken exactly from a connection that proved the password, once, while the
  // room is open and has a place in the queue; otherwise it changes nothing.
  lemma {:induction false} ApplicationAnswered(r: Room, c: ConnectionId, a: Application, now: Time)
    requires RoomInv(r) && Quiescent(r)
    ensures var (r', reply) := Handle(r, JoinRequested(c, a), now);
      && (reply.Ok? <==> MayApply(r, c))
      && (reply.Ok? ==>
        && reply.value == [Notify(JoinRequestPending(r.queue.nextId, c, a.nickname))]
        && r'.entries == r.entries[c := r.entries[c].(role := AwaitingDecision(r.queue.nextId))]
        && JoinRequest(r.queue.nextId, c, a) in r'.queue.requests
        && r'.table == r.table && r'.policyOpen && r'.phase == Open)
      && (reply.Err? ==> r' == r.(now := now))
      && (reply.Err? ==>
          reply.error ==
          if !r.policyOpen then PolicyLocked
          else if c !in r.entries then UnknownConnection
          else if !Verified(r, c) || !r.entries[c].role.InAdmission? then NotAMember
          else QueueFull)
  {
    hide TableInv, LinkInv, QueueInv, LimitsInv, MarksInv, PendingInv;
  }

  // ---- answering ------------------------------------------------------------------------------------------

  // The table has a place for the applicant and nobody has its name, connection or keys.
  ghost predicate HasRoomFor(t: Table, q: JoinRequest) {
    && |t.members| < t.limit
    && forall m :: m in t.members ==>
      && m.nickname != q.application.nickname && m.connection != q.connection
      && m.ed25519 != q.application.ed25519 && m.x25519 != q.application.x25519
  }

  // The member a request becomes in this room.
  function Newcomer(r: Room, q: JoinRequest): Member {
    Member(r.table.nextId, q.connection, q.application.nickname, DEFAULT_COLOR, false,
      q.application.ed25519, q.application.x25519, r.epoch + 1)
  }

  // A snapshot entry that says of a member what the table says.
  predicate EntryOf(e: SnapshotMember, m: Member) {
    && e.id == m.id && e.nickname == m.nickname && e.isHost == m.isHost && e.ed25519 == m.ed25519
    && e.color == m.color.Index()
  }

  ghost predicate ListsAll(ms: seq<SnapshotMember>, members: seq<Member>) {
    |ms| == |members| && forall i :: 0 <= i < |ms| ==> EntryOf(ms[i], members[i])
  }

  // Everybody else will be told of the newcomer, and the newcomer of everybody, colours included.
  ghost predicate Introduced(r: Room, m: Member, r': Room) {
    && (forall x :: x in r.table.members ==> Queued(r', x.connection, Joined(m.id, m.nickname, m.ed25519)))
    && exists ms :: ListsAll(ms, r'.table.members) && Queued(r', m.connection, Snapshot(ms))
  }

  lemma JoinIsIntroduced(r: Room, b: Room, m: Member)
    requires b.table.members == r.table.members + [m] && forall x :: x in r.table.members ==> x.id != m.id
    ensures Introduced(r, m, QueueMemberJoined(b, m))
  {
    hide SendAll, Announces;
    var r' := QueueMemberJoined(b, m);
    var joined := Joined(m.id, m.nickname, m.ed25519);
    var r1 := b.(sequence := b.sequence + 1);
    var event := SignedEvent(r1, joined);
    forall x | x in r.table.members ensures Queued(r', x.connection, joined) {
      SendAllReaches(r1.table.members, TheMember(m.id), event, x);
      SignedAnnounces(r', event, x.connection, joined);
      Found(r'.deferred, r', SendTo(x.connection, event), x.connection, joined);
    }
    var ms := SnapshotOf(r1.table.members);
    assert ListsAll(ms, r'.table.members);
    var last := SignedEvent(r1.(sequence := r1.sequence + 1), Snapshot(ms));
    assert r'.deferred[|r'.deferred| - 1] == SendTo(m.connection, last);
    SignedAnnounces(r', last, m.connection, Snapshot(ms));
    Found(r'.deferred, r', SendTo(m.connection, last), m.connection, Snapshot(ms));
  }

  ghost predicate LetIn(r: Room, q: JoinRequest, r': Room, actions: seq<Action>) {
    var m := Newcomer(r, q);
    && r'.table == r.table.(nextId := r.table.nextId + 1, members := r.table.members + [m])
    && q.connection in r.entries
    && r'.entries == r.entries[q.connection := r.entries[q.connection].(role := ActiveMember(m.id))]
    && Opened(r, r') && r'.policyOpen == r.policyOpen && Introduced(r, m, r')
    && SendTo(q.connection, JoinAccepted(m.id)) in actions && Notify(MemberJoined(m.id, m.nickname)) in actions
  }

  ghost predicate TurnedAway(r: Room, q: JoinRequest, r': Room, actions: seq<Action>) {
    && r'.table == r.table && r'.epoch == r.epoch && r'.phase == r.phase
    && r'.entries == r.entries - {q.connection} && q.connection in r.entries
    && SendTo(q.connection, JoinRejected) in actions && CloseConnection(q.connection) in actions
  }

  lemma AddsExactly(r: Room, q: JoinRequest)
    ensures AddMember(r.table, q.connection, q.application, r.epoch + 1).Ok? <==> HasRoomFor(r.table, q)
    ensures HasRoomFor(r.table, q) ==>
      AddMember(r.table, q.connection, q.application, r.epoch + 1) ==
      Ok((r.table.(nextId := r.table.nextId + 1, members := r.table.members + [Newcomer(r, q)]), Newcomer(r, q)))
  {
  }

  lemma AdmitOutcome(r: Room, q: JoinRequest)
    requires q.connection in r.entries && forall x :: x in r.table.members ==> x.id < r.table.nextId
    ensures var (r', reply) := Admit(r, q);
      && reply.Ok? && r'.now == r.now && r'.timeouts == r.timeouts
      && (HasRoomFor(r.table, q) ==> LetIn(r, q, r', reply.value))
      && (!HasRoomFor(r.table, q) ==> TurnedAway(r, q, r', reply.value))
  {
    hide SendAll, WrapAll, IdsOf, AddMember, HasRoomFor, IdSet, Introduced;
    AddsExactly(r, q);
    if HasRoomFor(r.table, q) {
      var m := Newcomer(r, q);
      var admitted := r.(table := r.table.(nextId := r.table.nextId + 1, members := r.table.members + [m]),
        entries := WithRole(Registered(r.entries, q.connection), q.connection, ActiveMember(m.id)));
      BeginOpens(admitted);
      JoinIsIntroduced(r, BeginEpochTransition(admitted).0, m);
      var first := [SendTo(q.connection, JoinAccepted(m.id)), Notify(MemberJoined(m.id, m.nickname))];
      assert first[0] in first && first[1] in first;
    } else {
      var first := [SendTo(q.connection, JoinRejected), CloseConnection(q.connection), Notify(ErrorNotice)];
      assert first[0] in first && first[1] in first;
    }
  }

  ghost predicate QueuedAnswer(r: Room, event: Event, q: JoinRequest, r': Room, reply: Reply) {
    && reply.Ok?
    && (Accepts(event, q.id) && HasRoomFor(r.table, q) ==> LetIn(r, q, r', reply.value))
    && (Accepts(event, q.id) && !HasRoomFor(r.table, q) ==> TurnedAway(r, q, r', reply.value))
    && (Rejects(event, q.id) ==> TurnedAway(r, q, r', reply.value))
  }

  predicate TimeoutAnswer(r: Room, event: Event, t: TimeoutRequest, r': Room, reply: Reply) {
    && r' == r.(now := r'.now, timeouts := r'.timeouts)
    && reply == Ok([Notify(
        if Accepts(event, t.id) then TimeoutRequestAccepted(t.id, t.seconds) else TimeoutRequestRejected(t.id))])
  }

  // An answer finds the request with its id and nothing else: accepting lets the applicant in
  // exactly if there is room for it, rejecting never does, and a request for a timeout is only
  // reported with its seconds.
  ghost predicate AnswerOutcome(r: Room, event: Event, id: RequestId, r': Room, reply: Reply) {
    && (forall q :: q in r.queue.requests && q.id == id ==> QueuedAnswer(r, event, q, r', reply))
    && (forall t :: t in r.timeouts && t.id == id ==> TimeoutAnswer(r, event, t, r', reply))
    && (!OpenRequest(r, id) ==> r' == r.(now := r'.now) && reply == Err(UnknownRequest))
  }

  lemma WaitingAt(r: Room, id: RequestId)
    requires RoomInv(r)
    ensures forall t :: t in r.timeouts && t.id == id ==>
      PositionOfTimeout(r.timeouts, id).Some? && PositionOfTimeout(r.timeouts, id).value < |r.timeouts|
      && r.timeouts[PositionOfTimeout(r.timeouts, id).value] == t
    ensures PositionOfTimeout(r.timeouts, id).Some? ==> HasTimeoutId(r.timeouts, id)
    ensures PositionOfRequest(r.queue.requests, id).Some? ==>
      HasRequestId(r.queue.requests, id) &&
        r.queue.requests[PositionOfRequest(r.queue.requests, id).value].connection in r.entries
  {
    hide TableInv, LimitsInv, MarksInv, EpochInv;
    var p := PositionOfTimeout(r.timeouts, id);
    forall t | t in r.timeouts && t.id == id ensures p.Some? && p.value < |r.timeouts| && r.timeouts[p.value] == t {
      var k :| 0 <= k < |r.timeouts| && r.timeouts[k] == t;
    }
  }

  lemma IdsAreOld(r: Room)
    requires RoomInv(r)
    ensures forall x :: x in r.table.members ==> x.id < r.table.nextId
  {
    hide LinkInv, QueueInv, LimitsInv, MarksInv, EpochInv;
  }

  lemma AcceptAnswers(r: Room, event: Event, id: RequestId, now: Time)
    requires RoomInv(r) && Quiescent(r) && Accepts(event, id)
    ensures var (r', reply) := OnAccept(r.(now := now), id); AnswerOutcome(r, event, id, r', reply)
  {
    hide RoomInv, Admit, TakeAt, HasRoomFor, LetIn, TurnedAway;
    var at := r.(now := now);
    QueuedAt(r, id);
    WaitingAt(r, id);
    var i := PositionOfRequest(r.queue.requests, id);
    if i.Some? && PositionOfTimeout(r.timeouts, id).None? {
      var q := r.queue.requests[i.value];
      var taken := at.(queue := TakeAt(r.queue, i.value));
      IdsAreOld(r);
      AdmitOutcome(taken, q);
      SameAdmission(r, taken, q, Admit(taken, q).0, Sent(Admit(taken, q).1));
    }
  }

  lemma RejectAnswers(r: Room, event: Event, id: RequestId, now: Time)
    requires RoomInv(r) && Quiescent(r) && Rejects(event, id)
    ensures var (r', reply) := OnReject(r.(now := now), id); AnswerOutcome(r, event, id, r', reply)
  {
    hide RoomInv, TakeAt, HasRoomFor, LetIn;
    QueuedAt(r, id);
    WaitingAt(r, id);
    var i := PositionOfRequest(r.queue.requests, id);
    if i.Some? {
      var told := [SendTo(r.queue.requests[i.value].connection, JoinRejected),
        CloseConnection(r.queue.requests[i.value].connection)];
      assert told[0] in told && told[1] in told;
    }
  }

  lemma {:induction false} AnsweredExactly(r: Room, event: Event, id: RequestId, now: Time)
    requires RoomInv(r) && Quiescent(r) && (Accepts(event, id) || Rejects(event, id))
    ensures var (r', reply) := Handle(r, event, now); AnswerOutcome(r, event, id, r', reply)
  {
    hide RoomInv, AnswerOutcome, OnAccept, OnReject;
    if Accepts(event, id) { AcceptAnswers(r, event, id, now); } else { RejectAnswers(r, event, id, now); }
  }

  lemma SameAdmission(r: Room, at: Room, q: JoinRequest, r': Room, actions: seq<Action>)
    requires at == r.(now := at.now, queue := at.queue)
    ensures HasRoomFor(at.table, q) == HasRoomFor(r.table, q)
    ensures LetIn(at, q, r', actions) ==> LetIn(r, q, r', actions)
    ensures TurnedAway(at, q, r', actions) ==> TurnedAway(r, q, r', actions)
  {
    hide IdSet, Introduced;
    if LetIn(at, q, r', actions) { SameIntroduction(r, at, Newcomer(at, q), r'); }
  }

  lemma SameIntroduction(r: Room, at: Room, m: Member, r': Room)
    requires Introduced(at, m, r') && at.table == r.table
    ensures Introduced(r, m, r')
  {
  }

  // ---- requests for a timeout, and connections -------------------------------------------------------------

  predicate EndsTimeout(r: Room, event: Event, t: TimeoutRequest) {
    || (Quiescent(r) && (Accepts(event, t.id) || Rejects(event, t.id)))
    || (Drops(r, event, t.connection) && t.connection != r.hostConnection)
  }

  // Apart from chat, requests for a timeout only end: by an answer or with their connection.
  ghost predicate TimeoutsOutcome(r: Room, event: Event, r': Room) {
    forall t :: t in r'.timeouts <==> t in r.timeouts && !EndsTimeout(r, event, t)
  }

  lemma AnswerTimeouts(r: Room, event: Event, id: RequestId)
    requires RoomInv(r) && Quiescent(r) && (Accepts(event, id) || Rejects(event, id))
    ensures TimeoutsOutcome(r, event, if Accepts(event, id) then OnAccept(r, id).0 else OnReject(r, id).0)
  {
    hide RoomInv, Admit, TakeAt, WithoutTimeout;
    var i := PositionOfTimeout(r.timeouts, id);
    if i.Some? {
      TakenTimeout(r, i.value);
      AnswersTimeout(r, id);
    }
    else { QueuedAdmission(r, id); }
  }

  lemma AnswersTimeout(r: Room, id: RequestId)
    requires PositionOfTimeout(r.timeouts, id).Some?
    ensures OnAccept(r, id).0 == OnReject(r, id).0 == WithoutTimeout(r, PositionOfTimeout(r.timeouts, id).value)
  {
  }

  lemma QueuedAdmission(r: Room, id: RequestId)
    requires RoomInv(r)
    ensures var p := PositionOfRequest(r.queue.requests, id);
      p.Some? ==>
        p.value < |r.queue.requests| &&
        Admit(r.(queue := TakeAt(r.queue, p.value)), r.queue.requests[p.value]).0.timeouts == r.timeouts
  {
    hide RoomInv, Admit, TakeAt;
    WaitingAt(r, id);
    var p := PositionOfRequest(r.queue.requests, id);
    IdsAreOld(r);
    if p.Some? { AdmitOutcome(r.(queue := TakeAt(r.queue, p.value)), r.queue.requests[p.value]); }
  }

  lemma TakenTimeout(r: Room, i: nat)
    requires RoomInv(r) && i < |r.timeouts|
    ensures forall t :: t in WithoutTimeout(r, i).timeouts <==> t in r.timeouts && t.id != r.timeouts[i].id
  {
    hide RoomInv;
    var before := r.timeouts;
    forall t ensures t in WithoutTimeout(r, i).timeouts <==> t in before && t.id != before[i].id {
      IdsIncrease(r);
      LeftWithout(before, i, t);
    }
  }

  lemma LostTimeouts(r: Room, event: Event, c: ConnectionId)
    requires RoomInv(r) && r.phase != Destroyed && (event.ConnectionLost? || event.TimeoutExpired?) &&
      Drops(r, event, c)
    ensures TimeoutsOutcome(r, event, OnConnectionLost(r, c).0)
  {
    hide RoomInv, TakeAt, TimeoutsNotOf, RejectTimeoutsOf, RemoveMember;
    TimeoutsNotOfIsFilter(r.timeouts, c);
    var r0 := r.(timeouts := TimeoutsNotOf(r.timeouts, c));
    var member := match MemberOf(r0.entries, c)
      case Some(id) => Some(id)
      case None =>
        match PositionOfConnection(r0.table.members, c) case None => None case Some(i) => Some(r0.table.members[i].id);
    if member.Some? { RemovalTimeouts(r0, member.value, false); }
  }

  lemma RemovalTimeouts(r: Room, id: MemberId, kicked: bool)
    ensures RemoveMember(r, id, kicked).Some? ==> RemoveMember(r, id, kicked).value.0.timeouts == r.timeouts
  {
    hide SendAll, WrapAll, IdsOf, Without;
  }

  lemma DeadlineTimeouts(r: Room)
    requires RoomInv(r)
    ensures OnEpochTimeout(r).0.timeouts == r.timeouts
  {
    hide RosterInv, EvictAll, QueueAllGone, WrapAll, IdsOf;
    if r.pending.Some? && HOST_ID !in r.pending.value.awaiting {
      SameRoster(r, r.(pending := None));
      EvictKeeps(r.(pending := None), r.pending.value.awaiting);
      var (r1, _, removed) := EvictAll(r.(pending := None), r.pending.value.awaiting);
      QueueAllGoneFrame(BeginEpochTransition(r1).0, removed, false);
    }
  }

  lemma OtherTimeouts(r: Room, event: Event)
    requires RoomInv(r) && r.phase != Destroyed && !event.ChatReceived? && !event.ConnectionLost?
    requires !(Quiescent(r) && (event.HostAccepted? || event.HostRejected?))
    requires !(Quiescent(r) && event.OnHostCommand? && (event.hostCommand.Accept? || event.hostCommand.Reject?))
    requires forall c :: !Drops(r, event, c)
    ensures var r' := if r.phase == EpochTransition then HandleInTransition(r, event).0 else HandleSettled(r, event).0;
      r'.timeouts == r.timeouts
  {
    hide RoomInv, OnEpochTimeout, OnHostCommandAt, OnMemberCommandAt, OnMemberDeparted, OnJoinRequested, OnEpochAck;
    SettledOrNot(r);
    AckTimeouts(r, event);
    if event.TimeoutExpired? { assert !Drops(r, event, event.connection); }
    DeadlineTimeouts(r);
    if event.OnHostCommand? { CommandTimeouts(r, event.hostCommand); }
    if event.OnMemberCommand? { MemberTimeouts(r, event.connection, event.memberCommand); }
    if event.MemberDeparted? { DepartedTimeouts(r, event.member); }
    if event.JoinRequested? { ApplyingTimeouts(r, event.connection, event.application); }
  }

  lemma AckTimeouts(r: Room, event: Event)
    ensures event.EpochAck? ==> OnEpochAck(r, event.connection, event.epoch).0.timeouts == r.timeouts
  {
  }

  lemma ApplyingTimeouts(r: Room, c: ConnectionId, a: Application)
    ensures OnJoinRequested(r, c, a).0.timeouts == r.timeouts
  {
  }

  lemma CommandTimeouts(r: Room, command: HostCommand)
    ensures !command.Accept? && !command.Reject? ==> OnHostCommandAt(r, command).0.timeouts == r.timeouts
  {
    hide RemoveMember, CloseAdmissions, Resolve, SendAll, OnAccept, OnReject;
    ClosingTimeouts(r);
    ClosingTimeouts(r.(sequence := r.sequence + 1));
    if command.Kick? && Resolve(r, command.target).Ok? && Resolve(r, command.target).value < |r.table.members| {
      RemovalTimeouts(r, r.table.members[Resolve(r, command.target).value].id, true);
    }
  }

  lemma MemberTimeouts(r: Room, c: ConnectionId, command: MemberCommand)
    ensures OnMemberCommandAt(r, c, command).0.timeouts == r.timeouts
  {
    hide RemoveMember, Resolve, SetColorAt;
    if MemberOf(r.entries, c).Some? { RemovalTimeouts(r, MemberOf(r.entries, c).value, false); }
  }

  lemma DepartedTimeouts(r: Room, id: MemberId)
    ensures OnMemberDeparted(r, id).0.timeouts == r.timeouts
  {
    hide RemoveMember;
    RemovalTimeouts(r, id, false);
  }

  lemma ClosingTimeouts(r: Room)
    ensures CloseAdmissions(r).0.timeouts == r.timeouts
  {
  }

  lemma {:induction false} TimeoutsExactly(r: Room, event: Event, now: Time)
    requires RoomInv(r) && r.phase != Destroyed && !event.ChatReceived?
    ensures TimeoutsOutcome(r, event, Handle(r, event, now).0)
  {
    hide RoomInv, TimeoutsOutcome, OnConnectionLost, OnAccept, OnReject;
    var at := r.(now := now);
    RoomAt(r, now);
    SettledOrNot(r);
    if (event.ConnectionLost? || event.TimeoutExpired?) && !ChecksDeadline(r, event) {
      LostTimeouts(at, event, event.connection);
    }
    else if Quiescent(r) && (event.HostAccepted? || event.HostRejected?) { AnswerTimeouts(at, event, event.request); }
    else if Quiescent(r) && event.OnHostCommand? && event.hostCommand.Accept? {
      AnswerTimeouts(at, event, event.hostCommand.request);
    }
    else if Quiescent(r) && event.OnHostCommand? && event.hostCommand.Reject? {
      AnswerTimeouts(at, event, event.hostCommand.request);
    }
    else { OtherTimeouts(at, event); KeptTimeouts(at, event, Handle(r, event, now).0); }
    TimeoutsFromNow(r, at, event, Handle(r, event, now).0);
  }

  lemma KeptTimeouts(r: Room, event: Event, r': Room)
    requires r'.timeouts == r.timeouts && !(Quiescent(r) && (event.HostAccepted? || event.HostRejected?))
    requires !(Quiescent(r) && event.OnHostCommand? && (event.hostCommand.Accept? || event.hostCommand.Reject?))
    requires forall c :: !Drops(r, event, c)
    ensures TimeoutsOutcome(r, event, r')
  {
  }

  lemma TimeoutsFromNow(r: Room, at: Room, event: Event, r': Room)
    requires TimeoutsOutcome(at, event, r') && at == r.(now := at.now)
    ensures TimeoutsOutcome(r, event, r')
  {
    forall t ensures EndsTimeout(r, event, t) == EndsTimeout(at, event, t) {}
  }

  predicate OnlyEntry(r: Room, r': Room, c: ConnectionId) {
    r' == r.(now := r'.now, entries := r'.entries) && r'.entries - {c} == r.entries - {c}
  }

  // A new connection has proved nothing yet, and a known one stays what it is; proving the
  // password is remembered for a known connection.
  lemma {:induction false} ConnectionsKnown(r: Room, c: ConnectionId, now: Time)
    requires RoomInv(r) && Quiescent(r)
    ensures var (r', reply) := Handle(r, ClientConnected(c), now);
      && reply == Ok([]) && OnlyEntry(r, r', c) && c in r'.entries
      && r'.entries[c] == if c in r.entries then r.entries[c] else Entry(false, InAdmission)
    ensures var (r', reply) := Handle(r, PasswordVerified(c), now);
      && reply == Ok([]) && OnlyEntry(r, r', c) && (c in r'.entries <==> c in r.entries)
      && (c in r.entries ==> r'.entries[c] == Entry(true, r.entries[c].role))
  {
    hide RoomInv;
  }

  // A lost connection that is no member's is forgotten, with whatever it asked for.
  lemma {:induction false} StrangerIsLost(r: Room, event: Event, c: ConnectionId, now: Time)
    requires RoomInv(r) && r.phase != Destroyed && (event.ConnectionLost? || event.TimeoutExpired?) &&
      Drops(r, event, c)
    requires c != r.hostConnection && MemberOf(r.entries, c).None?
    ensures var (r', reply) := Handle(r, event, now);
      && reply.Ok? && r' == r.(now := now, timeouts := r'.timeouts, queue := r'.queue, entries := r.entries - {c})
      && forall q :: q in r.queue.requests && q.connection == c ==> Notify(JoinRequestWithdrawn(q.id)) in reply.value
  {
    hide RoomInv, TakeAt, TimeoutsNotOf, RejectTimeoutsOf;
    RequestBehind(r, c);
    SettledOrNot(r);
    var id := RequestOf(r.entries, c);
    if id.Some? {
      QueuedAt(r, id.value);
      var told := [Notify(JoinRequestWithdrawn(id.value))];
      assert told[0] in told;
    }
  }

  lemma {:induction false} RejectedAreTold(ts: seq<TimeoutRequest>, c: ConnectionId, t: TimeoutRequest)
    requires t in ts && t.connection == c
    ensures Notify(TimeoutRequestRejected(t.id)) in RejectTimeoutsOf(ts, c)
    decreases |ts|
  {
    var before := ts[..|ts| - 1];
    assert ts == before + [ts[|ts| - 1]];
    if t in before { RejectedAreTold(before, c, t); }
  }

  // The host is told of every request for a timeout that ends with its connection.
  lemma {:induction false} LostTimeoutsAreTold(r: Room, event: Event, c: ConnectionId, t: TimeoutRequest, now: Time)
    requires RoomInv(r) && r.phase != Destroyed && (event.ConnectionLost? || event.TimeoutExpired?) &&
      Drops(r, event, c)
    requires c != r.hostConnection && t in r.timeouts && t.connection == c
    ensures var reply := Handle(r, event, now).1;
      reply.Ok? && Notify(TimeoutRequestRejected(t.id)) in reply.value
  {
    hide RoomInv, TakeAt, TimeoutsNotOf, RejectTimeoutsOf, RemoveMember;
    SettledOrNot(r);
    RejectedAreTold(r.timeouts, c, t);
    RequestBehind(r, c);
    var at := r.(now := now, timeouts := TimeoutsNotOf(r.timeouts, c));
    if MemberOf(r.entries, c).Some? {
      NotTheHost(r, c);
      RemovalIsDone(at, MemberOf(r.entries, c).value);
    }
  }

  lemma NotTheHost(r: Room, c: ConnectionId)
    requires RoomInv(r) && c != r.hostConnection
    ensures MemberOf(r.entries, c) != Some(HOST_ID)
  {
    hide QueueInv, LimitsInv, MarksInv, EpochInv;
    MemberOfConnection(r, c);
  }

  lemma RemovalIsDone(r: Room, id: MemberId)
    requires id != HOST_ID
    ensures RemoveMember(r, id, false).Some?
  {
    hide SendAll, WrapAll, IdsOf, Without;
  }
}
