// The room actor as the source has it (src/room/actor.rs): an object that owns the member table,
// the connections, the join queue and the replay tracker and changes them in place. Every method
// is proved to do what the handler of the same name in module Actor says.
module RoomActors {
  import opened Wrappers
  import opened RoomTypes
  import opened Members
  import opened Registry
  import opened Requests
  import opened Replay
  import opened RateLimit
  import opened Actor
  import opened ActorInvariants
  import Bytes
  import Session

  // ---- what a loop adds to its batch ---------------------------------------------------------

  lemma NothingWrapped(members: seq<Member>, epoch: nat, key: EpochKey)
    ensures WrapAll(members[..0], epoch, key) == [] && IdsOf(members[..0]) == []
  {
  }

  lemma OneMoreWrapped(members: seq<Member>, i: nat, epoch: nat, key: EpochKey)
    requires i < |members|
    ensures WrapAll(members[..i + 1], epoch, key) == WrapAll(members[..i], epoch, key) +
      [WrapFor(members[i], epoch, key)]
    ensures IdsOf(members[..i + 1]) == IdsOf(members[..i]) + [members[i].id]
  {
  }

  lemma NothingWithdrawn(requests: seq<JoinRequest>)
    ensures WithdrawAll(requests[..0]) == [] && ConnectionsOf(requests[..0]) == {}
  {
  }

  lemma OneMoreWithdrawn(requests: seq<JoinRequest>, i: nat)
    requires i < |requests|
    ensures WithdrawAll(requests[..i + 1]) == WithdrawAll(requests[..i]) +
      [CloseConnection(requests[i].connection), Notify(JoinRequestWithdrawn(requests[i].id))]
    ensures ConnectionsOf(requests[..i + 1]) == ConnectionsOf(requests[..i]) + {requests[i].connection}
  {
    assert requests[..i + 1][..i] == requests[..i];
    var both := ConnectionsOf(requests[..i]) + {requests[i].connection};
    forall c | c in both ensures c in ConnectionsOf(requests[..i + 1]) {
      if c == requests[i].connection { assert requests[..i + 1][i].connection == c; }
      else {
        var k :| 0 <= k < i && requests[..i][k].connection == c;
        assert requests[..i + 1][k].connection == c;
      }
    }
  }

  class RoomActor {
    const hostConnection: ConnectionId
    const hostKey: PublicKey
    const acknowledgeWithin: Time
    const table: MemberTable
    const connections: Connections
    const queue: JoinRequestQueue
    const replay: ReplayTracker
    var phase: Phase
    var policyOpen: bool
    var timeouts: seq<TimeoutRequest>
    var roomTimeout: Option<nat>
    var epoch: nat
    var epochKey: Option<EpochKey>
    var pending: Option<PendingEpoch>
    var sequence: nat
    var limits: map<MemberId, Bucket>
    var deferred: seq<Action>
    var now: Time
    var nextKey: nat

    function State(): Room
      reads this, table, connections, queue, replay
    {
      Room(hostConnection, hostKey, acknowledgeWithin, phase, policyOpen, table.State(), connections.entries,
        queue.State(), timeouts, roomTimeout, epoch, epochKey, pending, sequence, replay.last, limits, deferred,
        now, nextKey)
    }

    // `create` with a nickname that validates.
    constructor (host: HostIdentity, memberLimit: nat, requestLimit: nat, acknowledgeWithin: Time)
      ensures State() == Created(host, memberLimit, requestLimit, acknowledgeWithin)
      ensures fresh(table) && fresh(connections) && fresh(queue) && fresh(replay)
    {
      hostConnection := host.connection;
      hostKey := host.signingKey;
      this.acknowledgeWithin := acknowledgeWithin;
      table := new MemberTable(memberLimit);
      connections := new Connections();
      queue := new JoinRequestQueue(requestLimit);
      replay := new ReplayTracker();
      phase := Open;
      policyOpen := true;
      timeouts := [];
      roomTimeout := None;
      epoch := 0;
      epochKey := None;
      pending := None;
      sequence := 0;
      limits := map[];
      deferred := [];
      now := 0.0;
      nextKey := 0;
      new;
      var m := table.AddHost(host.connection, host.nickname, host.ed25519, host.x25519);
      assert table.members == [m];
    }

    // `start`.
    method Begin() returns (actions: seq<Action>)
      modifies this, connections, replay
      ensures (State(), actions) == Start(old(State()))
    {
      hide WrapAll, IdsOf, Retained;
      connections.Register(hostConnection);
      var known := connections.Promote(hostConnection, HOST_ID);
      var wraps := BeginTransition();
      actions := [Notify(InvitationRotated)] + wraps;
    }

    // `create` and `start`: a room that is running and keeps the room invariant, or the refusal
    // of the host's nickname.
    static method Establish(host: HostIdentity, memberLimit: nat, requestLimit: nat, acknowledgeWithin: Time)
      returns (established: Result<(RoomActor, seq<Action>), RoomError>)
      ensures established.Err? <==> !host.nickname.valid
      ensures established.Err? ==> established.error == BadNickname
      ensures established.Ok? ==>
        var (room, actions) := established.value;
        && fresh(room) && fresh(room.table) && fresh(room.connections) && fresh(room.queue) && fresh(room.replay)
        && (room.State(), actions) == Started(host, memberLimit, requestLimit, acknowledgeWithin)
        && (1 <= memberLimit <= MAX_MEMBERS ==> RoomInv(room.State()))
    {
      hide RoomInv, Start, Created;
      if !host.nickname.valid { return Err(BadNickname); }
      var room := new RoomActor(host, memberLimit, requestLimit, acknowledgeWithin);
      var actions := room.Begin();
      if 1 <= memberLimit <= MAX_MEMBERS { StartedHolds(host, memberLimit, requestLimit, acknowledgeWithin); }
      return Ok((room, actions));
    }

    // ---- batches -----------------------------------------------------------------------

    // The same message to every member but those skipped, in table order.
    method Broadcast(skip: Skip, message: Message) returns (sent: seq<Action>)
      ensures sent == SendAll(table.members, skip, message)
    {
      sent := [];
      var i := 0;
      assert table.members[..0] == [];
      while i < |table.members|
        invariant 0 <= i <= |table.members|
        invariant sent == SendAll(table.members[..i], skip, message)
      {
        assert table.members[..i + 1][..i] == table.members[..i];
        if !Skipped(skip, table.members[i]) { sent := sent + [SendTo(table.members[i].connection, message)]; }
        i := i + 1;
      }
      assert table.members[..i] == table.members;
    }

    // ---- epochs -------------------------------------------------------------------------

    // The key for every member, in table order, and the members to wait for.
    method WrapEveryone(key: EpochKey) returns (wraps: seq<Action>, awaiting: seq<MemberId>)
      ensures wraps == WrapAll(table.members, epoch, key) && awaiting == IdsOf(table.members)
    {
      hide WrapAll, IdsOf;
      wraps, awaiting := [], [];
      var i := 0;
      NothingWrapped(table.members, epoch, key);
      while i < |table.members|
        invariant 0 <= i <= |table.members|
        invariant wraps == WrapAll(table.members[..i], epoch, key)
        invariant awaiting == IdsOf(table.members[..i])
      {
        var m := table.members[i];
        OneMoreWrapped(table.members, i, epoch, key);
        wraps := wraps + [SendTo(m.connection, EpochWrap(epoch, key, m.id, m.x25519))];
        awaiting := awaiting + [m.id];
        i := i + 1;
      }
      assert table.members[..i] == table.members;
    }

    method BeginTransition() returns (wraps: seq<Action>)
      modifies this, replay
      ensures (State(), wraps) == BeginEpochTransition(old(State()))
    {
      hide WrapAll, IdsOf, Retained;
      epoch := epoch + 1;
      replay.RetainEpoch(epoch);
      sequence := sequence + 1;
      var key := EpochKey(nextKey);
      nextKey := nextKey + 1;
      var awaiting;
      wraps, awaiting := WrapEveryone(key);
      phase := EpochTransition;
      pending := Some(PendingEpoch(epoch, key, awaiting, now));
    }

    method DeferMemberJoined(m: Member)
      modifies this
      ensures State() == QueueMemberJoined(old(State()), m)
    {
      sequence := sequence + 1;
      var joined := Broadcast(TheMember(m.id), SignedEvent(State(), Joined(m.id, m.nickname, m.ed25519)));
      deferred := deferred + joined;
      sequence := sequence + 1;
      deferred := deferred + [SendTo(m.connection, SignedEvent(State(), Snapshot(SnapshotOf(table.members))))];
    }

    method DeferMemberGone(id: MemberId, kicked: bool)
      modifies this
      ensures State() == QueueMemberGone(old(State()), id, kicked)
    {
      sequence := sequence + 1;
      var gone := Broadcast(Nobody, SignedEvent(State(), GoneBody(id, kicked)));
      deferred := deferred + gone;
    }

    method Forget(id: MemberId) returns (gone: Option<Member>)
      modifies this, table, connections
      ensures match PositionOfId(old(table.members), id)
        case None => gone == None && State() == old(State())
        case Some(i) => gone == Some(old(table.members)[i]) && State() == DropMember(old(State()), i)
    {
      gone := table.Remove(id);
      if gone.Some? {
        var removed := connections.Remove(gone.value.connection);
        limits := limits - {id};
      }
    }

    // None is the refusal to remove the host; otherwise the wraps and the member, if it was known.
    method Discharge(id: MemberId, kicked: bool) returns (done: Option<(seq<Action>, Option<Member>)>)
      modifies this, table, connections, replay
      ensures match RemoveMember(old(State()), id, kicked)
        case None => done == None && State() == old(State())
        case Some((r, wraps, gone)) => done == Some((wraps, gone)) && State() == r
    {
      if id == HOST_ID { return None; }
      var gone := Forget(id);
      if gone.None? { return Some(([], None)); }
      var wraps := BeginTransition();
      DeferMemberGone(id, kicked);
      return Some((wraps, gone));
    }

    method Acknowledge(c: ConnectionId, ackedEpoch: nat) returns (reply: Reply)
      modifies this
      ensures (State(), reply) == OnEpochAck(old(State()), c, ackedEpoch)
    {
      if pending.None? || ackedEpoch != pending.value.epoch { return Ok([]); }
      var member := MemberOf(connections.entries, c);
      if member.None? { return Ok([]); }
      var rest := RetainNot(pending.value.awaiting, member.value);
      if |rest| == |pending.value.awaiting| { return Ok([]); }
      if rest != [] {
        pending := Some(pending.value.(awaiting := rest));
        return Ok([]);
      }
      epochKey := Some(pending.value.key);
      pending := None;
      phase := if policyOpen then Open else Locked;
      var actions := deferred;
      deferred := [];
      assert actions + [] == actions;
      if roomTimeout.Some? { actions := actions + [Notify(TimeoutRebroadcast(roomTimeout.value))]; }
      return Ok(actions);
    }

    method Evict(ids: seq<MemberId>) returns (actions: seq<Action>, removed: seq<MemberId>)
      modifies this, table, connections
      ensures (State(), actions, removed) == EvictAll(old(State()), ids)
    {
      actions, removed := [], [];
      var i := 0;
      assert ids[..0] == [];
      while i < |ids|
        invariant 0 <= i <= |ids|
        invariant (State(), actions, removed) == EvictAll(old(State()), ids[..i])
      {
        assert ids[..i + 1][..i] == ids[..i];
        var gone := Forget(ids[i]);
        if gone.Some? {
          actions := actions + [CloseConnection(gone.value.connection),
            Notify(MemberLeft(ids[i], gone.value.nickname))];
          removed := removed + [ids[i]];
        }
        i := i + 1;
      }
      assert ids[..i] == ids;
    }

    method DeferAllGone(ids: seq<MemberId>, kicked: bool)
      modifies this
      ensures State() == QueueAllGone(old(State()), ids, kicked)
    {
      var i := 0;
      assert ids[..0] == [];
      while i < |ids|
        invariant 0 <= i <= |ids|
        invariant State() == QueueAllGone(old(State()), ids[..i], kicked)
      {
        assert ids[..i + 1][..i] == ids[..i];
        DeferMemberGone(ids[i], kicked);
        i := i + 1;
      }
      assert ids[..i] == ids;
    }

    method ExpireEpoch() returns (reply: Reply)
      modifies this, table, connections, replay
      ensures (State(), reply) == OnEpochTimeout(old(State()))
    {
      if pending.None? || Elapsed(now, pending.value.startedAt) < acknowledgeWithin { return Ok([]); }
      var late := pending.value.awaiting;
      pending := None;
      if HOST_ID in late {
        reply := Close();
        return;
      }
      var actions, removed := Evict(late);
      var wraps := BeginTransition();
      DeferAllGone(removed, false);
      return Ok(actions + wraps);
    }

    method Close() returns (reply: Reply)
      modifies this
      ensures (State(), reply) == CloseRoom(old(State()))
    {
      if phase == Destroyed { return Err(RoomClosed); }
      phase := Destroyed;
      return Ok([ShutdownAll(connections.entries.Keys), Notify(RoomClosedNotice)]);
    }

    // ---- admission --------------------------------------------------------------------------

    method RequestJoin(c: ConnectionId, a: Application) returns (reply: Reply)
      modifies this, connections, queue
      ensures (State(), reply) == OnJoinRequested(old(State()), c, a)
    {
      if !policyOpen { return Err(PolicyLocked); }
      if c !in connections.entries { return Err(UnknownConnection); }
      var entry := connections.entries[c];
      if !entry.passwordVerified || !entry.role.InAdmission? { return Err(NotAMember); }
      var id := queue.Submit(c, a);
      if id.None? { return Err(QueueFull); }
      var known := connections.AttachRequest(c, id.value);
      sequence := sequence + 1;
      return Ok([Notify(JoinRequestPending(id.value, c, a.nickname))]);
    }

    method AcceptRequest(id: RequestId) returns (reply: Reply)
      modifies this, table, connections, queue, replay
      ensures (State(), reply) == OnAccept(old(State()), id)
    {
      var t := PositionOfTimeout(timeouts, id);
      if t.Some? {
        var seconds := timeouts[t.value].seconds;
        timeouts := timeouts[..t.value] + timeouts[t.value + 1..];
        return Ok([Notify(TimeoutRequestAccepted(id, seconds))]);
      }
      var taken := queue.Take(id);
      if taken.None? { return Err(UnknownRequest); }
      reply := Admission(taken.value);
    }

    method Admission(q: JoinRequest) returns (reply: Reply)
      modifies this, table, connections, replay
      ensures (State(), reply) == Admit(old(State()), q)
    {
      hide QueueMemberJoined, SendAll, WrapAll, BeginEpochTransition, AddMember, Registered, WithRole;
      var c := q.connection;
      var added := table.Add(c, q.application, epoch + 1);
      if added.Ok? {
        var m := added.value;
        connections.Register(c);
        var known := connections.Promote(c, m.id);
        var wraps := BeginTransition();
        DeferMemberJoined(m);
        return Ok([SendTo(c, JoinAccepted(m.id)), Notify(MemberJoined(m.id, m.nickname))] + wraps);
      }
      var actions := [SendTo(c, JoinRejected), CloseConnection(c), Notify(ErrorNotice)];
      var request := RequestOf(connections.entries, c);
      assert actions + [] == actions;
      if request.Some? { actions := actions + [Notify(JoinRequestWithdrawn(request.value))]; }
      var removed := connections.Remove(c);
      return Ok(actions);
    }

    method RejectRequest(id: RequestId) returns (reply: Reply)
      modifies this, connections, queue
      ensures (State(), reply) == OnReject(old(State()), id)
    {
      var t := PositionOfTimeout(timeouts, id);
      if t.Some? {
        timeouts := timeouts[..t.value] + timeouts[t.value + 1..];
        return Ok([Notify(TimeoutRequestRejected(id))]);
      }
      var taken := queue.Take(id);
      if taken.None? { return Err(UnknownRequest); }
      var c := taken.value.connection;
      var removed := connections.Remove(c);
      return Ok([SendTo(c, JoinRejected), CloseConnection(c)]);
    }

    method EndAdmissions() returns (closed: seq<Action>)
      modifies connections, queue
      ensures (State(), closed) == CloseAdmissions(old(State()))
    {
      hide NonMembers, ConnectionsOf, WithdrawAll;
      var requests := queue.Drain();
      closed := [];
      var i := 0;
      NothingWithdrawn(requests);
      while i < |requests|
        invariant 0 <= i <= |requests|
        invariant State() == old(State()).(queue := queue.State(), entries := connections.entries)
        invariant queue.State() == old(queue.State()).(requests := [])
        invariant closed == WithdrawAll(requests[..i])
        invariant connections.entries == old(connections.entries) - ConnectionsOf(requests[..i])
      {
        OneMoreWithdrawn(requests, i);
        closed := closed + [CloseConnection(requests[i].connection), Notify(JoinRequestWithdrawn(requests[i].id))];
        var removed := connections.Remove(requests[i].connection);
        i := i + 1;
      }
      assert requests[..i] == requests;
      var rest := connections.RemoveNonMembers();
      closed := closed + [CloseAll(rest)];
    }

    method RotateInvitation() returns (reply: Reply)
      modifies this, connections, queue
      ensures (State(), reply) == OnNewId(old(State()))
    {
      sequence := sequence + 1;
      var closed := EndAdmissions();
      return Ok(closed + [Notify(InvitationRotated)]);
    }

    method ChangeJoinPolicy(open: bool) returns (reply: Reply)
      modifies this, connections, queue
      ensures (State(), reply) == SetPolicy(old(State()), open)
    {
      var closed: seq<Action> := [];
      if !open { closed := EndAdmissions(); }
      policyOpen := open;
      phase := if open then Open else Locked;
      sequence := sequence + 1;
      var sent := Broadcast(TheHost, SignedEvent(State(), PolicyChanged(open)));
      return Ok(closed + sent + [Notify(JoinPolicyNotice(open))]);
    }

    // ---- members ------------------------------------------------------------------------------

    method LeaveRoom(c: ConnectionId) returns (reply: Reply)
      modifies this, table, connections, replay
      ensures (State(), reply) == OnLeave(old(State()), c)
    {
      if c == hostConnection { return Err(HostCannotLeave); }
      var member := MemberOf(connections.entries, c);
      if member.None? { return Err(NotAMember); }
      var done := Discharge(member.value, false);
      match done
      case None => return Err(HostCannotLeave);
      case Some((wraps, None)) => return Ok([]);
      case Some((wraps, Some(m))) =>
        return Ok(wraps + [SendTo(c, Shutdown), CloseConnection(c), Notify(MemberLeft(member.value, m.nickname))]);
    }

    method Recolor(id: MemberId, color: Color)
      modifies table
      ensures State() == Recolored(old(State()), id, color)
    {
      table.SetColor(id, color);
    }

    method ChooseColor(c: ConnectionId, color: Color) returns (reply: Reply)
      modifies table
      ensures (State(), reply) == OnColor(old(State()), c, color)
    {
      match MemberOf(connections.entries, c)
      case Some(id) =>
        Recolor(id, color);
        return Ok([]);
      case None =>
        if c != hostConnection { return Err(NotAMember); }
        Recolor(HOST_ID, color);
        return Ok([]);
    }

    method KickMember(target: MemberRef) returns (reply: Reply)
      modifies this, table, connections, replay
      ensures (State(), reply) == OnKick(old(State()), target)
    {
      var found := Resolve(State(), target);
      if found.Err? { return Err(found.error); }
      if found.value >= |table.members| { return Err(UnknownMember); }
      var m := table.members[found.value];
      if m.isHost { return Err(CannotKickHost); }
      var done := Discharge(m.id, true);
      match done
      case None => return Err(HostCannotLeave);
      case Some((wraps, None)) => return Ok([]);
      case Some((wraps, Some(gone))) =>
        return Ok(wraps + [CloseConnection(m.connection), Notify(MemberKicked(m.id, gone.nickname))]);
    }

    method LoseConnection(c: ConnectionId) returns (reply: Reply)
      modifies this, table, connections, queue, replay
      ensures (State(), reply) == OnConnectionLost(old(State()), c)
    {
      hide RemoveMember, TimeoutsNotOf, RejectTimeoutsOf, CloseRoom;
      if c == hostConnection {
        reply := Close();
        return;
      }
      var rejected := RejectTimeoutsOf(timeouts, c);
      timeouts := TimeoutsNotOf(timeouts, c);
      var member := MemberOf(connections.entries, c);
      var position := PositionOfConnection(table.members, c);
      if member.None? && position.Some? { member := Some(table.members[position.value].id); }
      if member.Some? {
        var done := Discharge(member.value, false);
        match done
        case None => return Err(HostCannotLeave);
        case Some((wraps, gone)) =>
          var removed := connections.Remove(c);
          return Ok(rejected + wraps + if gone.Some? then [Notify(MemberLeft(member.value, gone.value.nickname))]
            else []);
      }
      var request := RequestOf(connections.entries, c);
      if request.Some? {
        var taken := queue.Take(request.value);
        if taken.Some? { rejected := rejected + [Notify(JoinRequestWithdrawn(taken.value.id))]; }
      }
      var removed := connections.Remove(c);
      return Ok(rejected);
    }

    method MemberIsGone(id: MemberId) returns (reply: Reply)
      modifies this, table, connections, replay
      ensures (State(), reply) == OnMemberDeparted(old(State()), id)
    {
      var done := Discharge(id, false);
      match done
      case None => return Err(HostCannotLeave);
      case Some((wraps, None)) => return Ok([]);
      case Some((wraps, Some(m))) => return Ok(wraps + [Notify(MemberLeft(id, m.nickname))]);
    }

    // ---- chat -----------------------------------------------------------------------------------

    method ReceiveChat(c: ConnectionId, kind: nat, e: Envelope) returns (reply: Reply)
      modifies this, table, connections, queue, replay
      ensures (State(), reply) == OnChatReceived(old(State()), c, kind, e)
    {
      if !RateLimited(kind) && kind != MSG_TIMEOUT_CHANGED { return Err(ChatRefused(InvalidPlaintext)); }
      var member := MemberOf(connections.entries, c);
      if member.None? { return Err(NotAMember); }
      if e.sender != member.value { return Err(ChatRefused(UnknownSender)); }
      if PositionOfId(table.members, e.sender).None? { return Err(NotAMember); }
      if RateLimited(kind) {
        var (bucket, allowed) := Allow(BucketOf(State(), e.sender), now);
        limits := limits[e.sender := bucket];
        if !allowed {
          reply := Warn(c, e.sender, bucket.violations >= RATE_LIMIT_TERMINATION);
          return;
        }
      }
      reply := OpenThenRelay(c, kind, e);
    }

    method Warn(c: ConnectionId, id: MemberId, abusive: bool) returns (reply: Reply)
      modifies this, table, connections, replay
      ensures (State(), reply) == OverLimit(old(State()), c, id, abusive)
    {
      var warning := [SendTo(c, ErrorMessage), Notify(ErrorNotice)];
      if !abusive { return Ok(warning); }
      var done := Discharge(id, true);
      match done
      case None => return Err(HostCannotLeave);
      case Some((wraps, None)) => return Ok(warning);
      case Some((wraps, Some(m))) =>
        return Ok(warning + wraps + [CloseConnection(c), Notify(MemberKicked(id, m.nickname))]);
    }

    method OpenThenRelay(c: ConnectionId, kind: nat, e: Envelope) returns (reply: Reply)
      modifies this, table, queue, replay
      ensures (State(), reply) == OpenAndRelay(old(State()), c, kind, e)
    {
      if e.epoch != epoch { return Err(WrongEpoch(e.epoch, epoch)); }
      var last := LastAccepted(replay.last, e.sender, epoch);
      if last.Some? && e.sequence <= last.value { return Err(Replayed(e.sender, e.sequence)); }
      var opening := ChatPlaintext(State(), kind, e);
      if opening.Err? { return Err(ChatRefused(opening.error)); }
      var isNew := replay.Accept(e.sender, epoch, e.sequence);
      reply := ValidateThenRelay(c, kind, e, opening.value);
    }

    method ValidateThenRelay(c: ConnectionId, kind: nat, e: Envelope, p: Plaintext) returns (reply: Reply)
      modifies this, table, queue
      ensures (State(), reply) == RelayPlaintext(old(State()), c, kind, e, p)
    {
      if kind == MSG_COLOR {
        if |p.data| != 1 { return Err(ChatRefused(InvalidPlaintext)); }
        var color := ColorFromIndex(p.data[0]);
        if color.None? { return Err(BadColor(p.data[0])); }
        Recolor(e.sender, color.value);
      } else if kind == MSG_TIMEOUT_REQUEST {
        reply := QueueTimeoutRequest(c, e, p);
        return;
      } else if kind == MSG_TIMEOUT_CHANGED {
        if e.sender != HOST_ID { return Err(ChatRefused(InvalidPlaintext)); }
        var setting := Session.TimeoutPayload(p);
        if setting.Err? { return Err(ChatRefused(InvalidPlaintext)); }
        roomTimeout := setting.value;
      } else if !p.isText { return Err(ChatRefused(InvalidPlaintext)); }
      var sent := Broadcast(TheConnection(c), Relayed(kind, e));
      return Ok(sent);
    }

    method QueueTimeoutRequest(c: ConnectionId, e: Envelope, p: Plaintext) returns (reply: Reply)
      modifies this, queue
      ensures (State(), reply) == AskForTimeout(old(State()), c, e, p)
    {
      if e.sender == HOST_ID || |p.data| != 8 || !Session.SecondsInRange(Bytes.FromBigEndian(p.data)) {
        return Err(ChatRefused(InvalidPlaintext));
      }
      if |queue.requests| + |timeouts| >= queue.limit { return Err(QueueFull); }
      var position := PositionOfId(table.members, e.sender);
      if position.None? { return Err(NotAMember); }
      var nickname := table.members[position.value].nickname;
      var seconds := Bytes.FromBigEndian(p.data);
      var id := queue.AllocateId();
      timeouts := timeouts + [TimeoutRequest(id, c, e.sender, nickname, seconds)];
      return Ok([Notify(TimeoutRequestPending(id, e.sender, nickname, seconds))]);
    }

    // ---- dispatch ----------------------------------------------------------------------------------

    method HostCommands(command: HostCommand) returns (reply: Reply)
      modifies this, table, connections, queue, replay
      ensures (State(), reply) == OnHostCommandAt(old(State()), command)
    {
      match command
      case Kick(target) => reply := KickMember(target);
      case NewId => reply := RotateInvitation();
      case ReqOn => reply := ChangeJoinPolicy(true);
      case ReqOff => reply := ChangeJoinPolicy(false);
      case Requests => reply := Ok([Notify(RequestsSnapshot(queue.requests, timeouts))]);
      case Accept(id) => reply := AcceptRequest(id);
      case Reject(id) => reply := RejectRequest(id);
    }

    method MemberCommands(c: ConnectionId, command: MemberCommand) returns (reply: Reply)
      modifies this, table, connections, replay
      ensures (State(), reply) == OnMemberCommandAt(old(State()), c, command)
    {
      match command
      case Leave => reply := LeaveRoom(c);
      case SetColor(color) => reply := ChooseColor(c, color);
      case List => reply := Ok([Notify(ListSnapshot(table.members))]);
      case Whois(nickname) =>
        var found := Resolve(State(), ByNickname(nickname));
        if found.Err? { reply := Err(found.error); }
        else if found.value < |table.members| { reply := Ok([Notify(WhoisResult(table.members[found.value]))]); }
        else { reply := Err(UnknownMember); }
    }

    method HandlePending(event: Event) returns (reply: Reply)
      modifies this, table, connections, queue, replay
      ensures (State(), reply) == HandleInTransition(old(State()), event)
    {
      hide OnEpochAck, OnConnectionLost, OnEpochTimeout, CloseRoom, OnChatReceived, OnHostCommandAt, HasAckedPending;
      match event
      case EpochAck(c, ackedEpoch) => reply := Acknowledge(c, ackedEpoch);
      case ConnectionLost(c) => reply := LoseConnection(c);
      case TimeoutExpired(c, acknowledgement) =>
        if acknowledgement { reply := ExpireEpoch(); } else { reply := LoseConnection(c); }
      case EpochMaintenance => reply := ExpireEpoch();
      case CloseRequested => reply := Close();
      case TorStopped => reply := Close();
      case OnHostCommand(Requests) => reply := HostCommands(Requests);
      case ChatReceived(c, kind, e) =>
        if HasAckedPending(State(), c) { reply := ReceiveChat(c, kind, e); }
        else { reply := RejectDuringTransition(State(), c); }
      case _ => reply := Err(EpochTransitionInProgress);
    }

    method HandleOtherwise(event: Event) returns (reply: Reply)
      modifies this, table, connections, queue, replay
      ensures (State(), reply) == HandleSettled(old(State()), event)
    {
      hide OnEpochAck, OnConnectionLost, CloseRoom, OnChatReceived, OnHostCommandAt, OnMemberCommandAt,
        OnMemberDeparted, OnAccept, OnReject, OnJoinRequested, Registered, PasswordMarked;
      match event
      case ClientConnected(c) => connections.Register(c); reply := Ok([]);
      case PasswordVerified(c) => var known := connections.MarkPasswordVerified(c); reply := Ok([]);
      case EpochAck(c, ackedEpoch) => reply := Acknowledge(c, ackedEpoch);
      case JoinRequested(c, a) => reply := RequestJoin(c, a);
      case OnHostCommand(command) => reply := HostCommands(command);
      case OnMemberCommand(c, command) => reply := MemberCommands(c, command);
      case HostAccepted(id) => reply := AcceptRequest(id);
      case HostRejected(id) => reply := RejectRequest(id);
      case ConnectionLost(c) => reply := LoseConnection(c);
      case TimeoutExpired(c, _) => reply := LoseConnection(c);
      case EpochMaintenance => reply := Ok([]);
      case MemberDeparted(id) => reply := MemberIsGone(id);
      case ChatReceived(c, kind, e) => reply := ReceiveChat(c, kind, e);
      case TorStopped => reply := Close();
      case CloseRequested => reply := Close();
    }

    // Handles one event at time `at`, as `Handle` says, and keeps the invariant of the room.
    method HandleEventAt(event: Event, at: Time) returns (reply: Reply)
      modifies this, table, connections, queue, replay
      ensures (State(), reply) == Handle(old(State()), event, at)
      ensures RoomInv(old(State())) && Admissible(event) ==> RoomInv(State())
    {
      hide HandleInTransition, HandleSettled, RoomInv;
      ghost var before := State();
      now := at;
      if phase == Destroyed { reply := Err(RoomClosed); }
      else if phase == EpochTransition { reply := HandlePending(event); }
      else { reply := HandleOtherwise(event); }
      if RoomInv(before) && Admissible(event) { HandleKeeps(before, event, at); }
    }
  }
}
