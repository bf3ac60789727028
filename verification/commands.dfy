// What the host's and the members' commands do, told by the command alone: the join policy, a new
// invitation, colours and reports.
module Commands {
  import opened Wrappers
  import opened RoomTypes
  import opened Members
  import opened Registry
  import opened Requests
  import opened Actor
  import opened ActorInvariants
  import opened ActorMoves
  import opened MemberViews
  import opened Departures

  // ---- the admissions that end -----------------------------------------------------------------

  function Applying(e: Entries): set<ConnectionId> { set c | c in e && e[c].role.InAdmission? }

  ghost predicate OnlyMembersKnown(r: Room, r': Room) {
    && (forall c :: c in r'.entries <==> c in r.entries && r.entries[c].role.ActiveMember?)
    && (forall c :: c in r'.entries ==> r'.entries[c] == r.entries[c])
  }

  predicate Withdrawn(q: JoinRequest, actions: seq<Action>) {
    CloseConnection(q.connection) in actions && Notify(JoinRequestWithdrawn(q.id)) in actions
  }

  // Every admission is over: nobody waits, nobody but members is known, and all others are closed.
  ghost predicate Emptied(r: Room, r': Room, actions: seq<Action>) {
    && r'.queue == r.queue.(requests := []) && OnlyMembersKnown(r, r')
    && (forall q :: q in r.queue.requests ==> Withdrawn(q, actions))
    && CloseAll(Applying(r.entries)) in actions
  }

  // Members, requests for a timeout, epoch and limits are as before.
  predicate SameMembership(r: Room, r': Room) {
    && r'.table == r.table && r'.timeouts == r.timeouts && r'.roomTimeout == r.roomTimeout && r'.limits == r.limits
    && r'.epoch == r.epoch && r'.epochKey == r.epochKey && r'.pending == r.pending && r'.replay == r.replay
    && r'.nextKey == r.nextKey && r'.hostKey == r.hostKey && r'.hostConnection == r.hostConnection
  }

  lemma {:induction false} WithdrawAllHas(requests: seq<JoinRequest>, q: JoinRequest)
    requires q in requests
    ensures Withdrawn(q, WithdrawAll(requests))
    decreases |requests|
  {
    var before := requests[..|requests| - 1];
    assert requests == before + [requests[|requests| - 1]];
    if q in before { WithdrawAllHas(before, q); }
    else {
      var last := [CloseConnection(q.connection), Notify(JoinRequestWithdrawn(q.id))];
      assert last[0] in last && last[1] in last;
    }
  }

  lemma QueuedConnections(r: Room)
    requires RoomInv(r)
    ensures forall c :: c in r.entries ==>
      (c in ConnectionsOf(r.queue.requests) <==> r.entries[c].role.AwaitingDecision?)
  {
    hide TableInv, QueueInv, LimitsInv, MarksInv, EpochInv;
    forall c | c in r.entries && r.entries[c].role.AwaitingDecision? ensures c in ConnectionsOf(r.queue.requests) {
      assert HasRequest(r.queue.requests, c, r.entries[c].role.request);
    }
  }

  lemma ClosingEmpties(r: Room)
    requires RoomInv(r)
    ensures var (r', actions) := CloseAdmissions(r);
      && Emptied(r, r', actions) && r' == r.(queue := r'.queue, entries := r'.entries)
  {
    hide RoomInv, ConnectionsOf, WithdrawAll, Withdrawn;
    QueuedConnections(r);
    var (r', actions) := CloseAdmissions(r);
    var queued := r.entries - ConnectionsOf(r.queue.requests);
    assert NonMembers(queued) == Applying(r.entries);
    var rest := [CloseAll(NonMembers(queued))];
    assert rest[0] in rest;
    forall q | q in r.queue.requests ensures Withdrawn(q, actions) {
      WithdrawAllHas(r.queue.requests, q);
      WithdrawnStays(q, WithdrawAll(r.queue.requests), rest);
    }
  }

  lemma WithdrawnStays(q: JoinRequest, actions: seq<Action>, more: seq<Action>)
    requires Withdrawn(q, actions)
    ensures Withdrawn(q, actions + more)
  {
  }

  // ---- the join policy ------------------------------------------------------------------------------

  predicate Unlocks(r: Room, event: Event) { Quiescent(r) && event == OnHostCommand(ReqOn) }

  predicate Locks(r: Room, event: Event) { Quiescent(r) && event == OnHostCommand(ReqOff) }

  // A signed announcement of the policy, newer than any before, to every guest and not the host.
  ghost predicate PolicyTold(r: Room, r': Room, open: bool, actions: seq<Action>) {
    && r.sequence < r'.sequence
    && var event := RoomEvent(r'.sequence, r.epoch, PolicyChanged(open),
        Signature(r.hostKey, r'.sequence, r.epoch, PolicyChanged(open)));
      && (forall m :: m in r.table.members && !m.isHost ==> SendTo(m.connection, event) in actions)
      && (forall m :: m in r.table.members && m.isHost ==> SendTo(m.connection, event) !in actions)
      && Notify(JoinPolicyNotice(open)) in actions
  }

  ghost predicate PolicyOutcome(r: Room, event: Event, now: Time, r': Room, reply: Reply) {
    && r'.policyOpen == (Unlocks(r, event) || (r.policyOpen && !Locks(r, event)))
    && (Unlocks(r, event) || Locks(r, event) ==>
      && reply.Ok? && SameMembership(r, r') && PolicyTold(r, r', r'.policyOpen, reply.value))
    && (Unlocks(r, event) ==> r'.phase == Open && r'.queue == r.queue && r'.entries == r.entries)
    && (Locks(r, event) ==> r'.phase == Locked && Emptied(r, r', reply.value))
  }

  lemma SendAllMisses(members: seq<Member>, skip: Skip, message: Message, c: ConnectionId)
    requires forall m :: m in members && m.connection == c ==> Skipped(skip, m)
    ensures SendTo(c, message) !in SendAll(members, skip, message)
    decreases |members|
  {
    if members != [] {
      var before := members[..|members| - 1];
      assert members == before + [members[|members| - 1]];
      SendAllMisses(before, skip, message, c);
    }
  }

  lemma WithdrawAllSendsNothing(requests: seq<JoinRequest>)
    ensures forall a :: a in WithdrawAll(requests) ==> !a.SendTo?
    decreases |requests|
  {
    if requests != [] { WithdrawAllSendsNothing(requests[..|requests| - 1]); }
  }

  lemma PolicySet(r: Room, open: bool, now: Time)
    requires RoomInv(r) && Quiescent(r)
    ensures var event := OnHostCommand(if open then ReqOn else ReqOff);
      var (r', reply) := SetPolicy(r.(now := now), open);
      PolicyOutcome(r, event, now, r', reply)
  {
    hide RoomInv, CloseAdmissions, SendAll, Emptied;
    var at := r.(now := now);
    RoomAt(r, now);
    var (r', reply) := SetPolicy(at, open);
    var (closed, withdrawn) := if open then (at, []) else CloseAdmissions(at);
    if !open { ClosingEmpties(at); WithdrawAllSendsNothing(at.queue.requests); ClosedSends(at); }
    var event := SignedEvent(r', PolicyChanged(open));
    var sent := SendAll(r'.table.members, TheHost, event);
    forall m | m in r.table.members && !m.isHost ensures SendTo(m.connection, event) in sent {
      SendAllReaches(r'.table.members, TheHost, event, m);
    }
    forall m | m in r.table.members && m.isHost ensures SendTo(m.connection, event) !in sent {
      OneConnection(r, m);
      SendAllMisses(r'.table.members, TheHost, event, m.connection);
    }
    if !open { EmptiedMore(r, at, closed, r', withdrawn, sent + [Notify(JoinPolicyNotice(open))]); }
    var tail := [Notify(JoinPolicyNotice(open))];
    assert tail[0] in tail;
    assert reply.value == withdrawn + (sent + tail) == withdrawn + sent + tail;
  }

  lemma ClosedSends(r: Room)
    ensures forall a :: a in CloseAdmissions(r).1 ==> !a.SendTo?
  {
    hide WithdrawAll, ConnectionsOf;
    WithdrawAllSendsNothing(r.queue.requests);
  }

  lemma OneConnection(r: Room, m: Member)
    requires RoomInv(r) && m in r.table.members
    ensures forall x :: x in r.table.members && x.connection == m.connection ==> x == m
  {
    RoomTableIsApart(r);
    var i :| 0 <= i < |r.table.members| && r.table.members[i] == m;
    forall x | x in r.table.members && x.connection == m.connection ensures x == m {
      var k :| 0 <= k < |r.table.members| && r.table.members[k] == x;
      SameIdSameMember(r.table.members, i, k);
    }
  }

  lemma EmptiedMore(r: Room, at: Room, closed: Room, r': Room, actions: seq<Action>, more: seq<Action>)
    requires Emptied(at, closed, actions) && at.queue == r.queue && at.entries == r.entries
    requires r'.queue == closed.queue && r'.entries == closed.entries
    ensures Emptied(r, r', actions + more)
  {
    hide Withdrawn;
    forall q | q in r.queue.requests ensures Withdrawn(q, actions + more) { WithdrawnStays(q, actions, more); }
  }

  // Any event in any room that is not closed: the policy is what the last command made it.
  lemma {:induction false} PolicyExactly(r: Room, event: Event, now: Time)
    requires RoomInv(r) && r.phase != Destroyed
    ensures var (r', reply) := Handle(r, event, now); PolicyOutcome(r, event, now, r', reply)
  {
    hide RoomInv, PolicyTold, Emptied, SetPolicy, MoveOk, SameMembership, HandleInTransition;
    if Unlocks(r, event) { PolicySet(r, true, now); }
    else if Locks(r, event) { PolicySet(r, false, now); }
    else {
      RoomKeyed(r);
      SettledOrNot(r);
      hide HandleSettled;
      var move := HandleMoves(r, event, now);
      MoveKeepsPolicy(r, Handle(r, event, now).0, Sent(Handle(r, event, now).1), move);
    }
  }

  lemma MoveKeepsPolicy(r: Room, r': Room, actions: seq<Action>, move: Move)
    requires r.nextKey >= 1 && MoveOk(r, r', actions, move) && !move.ChangePolicy?
    ensures r'.policyOpen == r.policyOpen
  {
    hide SameRoom, RelayOk, QueueMemberJoined, QueueAllGone, Survivors, OneLeft, SendAll, WrapAll, AllQuiet;
    match move
    case Idle => assert r'.policyOpen == r.policyOpen;
    case RelayChat(_, _, _, _) => assert r'.policyOpen == r.policyOpen;
    case Activate(_) => assert r'.policyOpen == r.policyOpen;
    case Enroll(_) => assert r'.policyOpen == r.policyOpen;
    case Depart(_, _, _, _) => assert r'.policyOpen == r.policyOpen;
  }

  // ---- a new invitation ----------------------------------------------------------------------------

  // Every admission ends; members, policy and phase stay.
  lemma {:induction false} NewInvitation(r: Room, now: Time)
    requires RoomInv(r) && Quiescent(r)
    ensures var (r', reply) := Handle(r, OnHostCommand(NewId), now);
      && reply.Ok? && SameMembership(r, r') && r'.phase == r.phase && r'.policyOpen == r.policyOpen
      && Emptied(r, r', reply.value) && Notify(InvitationRotated) in reply.value
  {
    hide RoomInv, CloseAdmissions, Emptied;
    var at := r.(now := now);
    RoomAt(r, now);
    var bumped := at.(sequence := at.sequence + 1);
    BumpedKeeps(at);
    ClosingEmpties(bumped);
    var (closed, actions) := CloseAdmissions(bumped);
    var told := [Notify(InvitationRotated)];
    EmptiedMore(r, bumped, closed, closed, actions, told);
    assert told[0] in told;
  }

  lemma BumpedKeeps(r: Room)
    requires RoomInv(r)
    ensures RoomInv(r.(sequence := r.sequence + 1))
  {
    hide TableInv, LinkInv, QueueInv, LimitsInv, MarksInv, PendingInv;
  }

  // ---- colours and reports ---------------------------------------------------------------------------

  predicate Speaker(r: Room, c: ConnectionId, m: Member) { m in r.table.members && m.connection == c }

  ghost predicate Repainted(before: seq<Member>, after: seq<Member>, id: MemberId, color: Color) {
    |after| == |before| && forall i :: 0 <= i < |before| ==>
      after[i] == if before[i].id == id then before[i].(color := color) else before[i]
  }

  lemma RecoloredRepaints(r: Room, id: MemberId, color: Color)
    requires AllApart(r.table.members)
    ensures var r' := Recolored(r, id, color);
      Repainted(r.table.members, r'.table.members, id, color) &&
        r' == r.(table := r.table.(members := r'.table.members))
  {
    var p := PositionOfId(r.table.members, id);
    if p.Some? {
      forall i | 0 <= i < |r.table.members| && r.table.members[i].id == id ensures i == p.value {
        SameIdSameMember(r.table.members, i, p.value);
      }
    }
  }

  // A member chooses its own colour, and nobody else's.
  lemma {:induction false} ColorChosen(r: Room, c: ConnectionId, color: Color, now: Time)
    requires RoomInv(r) && Quiescent(r)
    ensures var (r', reply) := Handle(r, OnMemberCommand(c, SetColor(color)), now);
      && r' == r.(now := now, table := r.table.(members := r'.table.members))
      && (forall m :: Speaker(r, c, m) ==> reply == Ok([]) && Repainted(r.table.members, r'.table.members, m.id, color))
      && ((forall m :: m in r.table.members ==> m.connection != c) ==> reply == Err(NotAMember) && r'.table == r.table)
  {
    hide RoomInv, Recolored, Repainted;
    RoomTableIsApart(r);
    var at := r.(now := now);
    SpeakerId(r, c);
    forall id { RecoloredRepaints(at, id, color); }
  }

  // The member behind a connection is the one whose role the registry keeps.
  lemma SpeakerId(r: Room, c: ConnectionId)
    requires RoomInv(r)
    ensures forall m :: Speaker(r, c, m) ==> MemberOf(r.entries, c) == Some(m.id)
    ensures MemberOf(r.entries, c).Some? ==> exists m :: Speaker(r, c, m)
    ensures exists m :: Speaker(r, r.hostConnection, m)
  {
    hide QueueInv, LimitsInv, MarksInv, EpochInv;
    assert Speaker(r, r.hostConnection, r.table.members[0]);
    if MemberOf(r.entries, c).Some? {
      var i :| 0 <= i < |r.table.members| && r.table.members[i].connection == c &&
        r.table.members[i].id == MemberOf(r.entries, c).value;
      assert Speaker(r, c, r.table.members[i]);
    }
  }

  // Reports change nothing and say what is in the room.
  lemma {:induction false} ReportsAreTrue(r: Room, c: ConnectionId, nickname: Nickname, now: Time)
    requires RoomInv(r) && r.phase != Destroyed
    ensures Handle(r, OnHostCommand(Requests), now) ==
      (r.(now := now), Ok([Notify(RequestsSnapshot(r.queue.requests, r.timeouts))]))
    ensures Quiescent(r) ==>
      Handle(r, OnMemberCommand(c, List), now) == (r.(now := now), Ok([Notify(ListSnapshot(r.table.members))]))
    ensures Quiescent(r) ==> forall m :: m in r.table.members && m.nickname == nickname && nickname.text != "" ==>
      Handle(r, OnMemberCommand(c, Whois(nickname)), now) == (r.(now := now), Ok([Notify(WhoisResult(m))]))
    ensures Quiescent(r) && (forall m :: m in r.table.members ==> m.nickname != nickname || nickname.text == "") ==>
      Handle(r, OnMemberCommand(c, Whois(nickname)), now) ==
      (r.(now := now), Err(if nickname.text == "" then EmptyMemberRef else UnknownMember))
  {
    hide RoomInv, Resolve;
    SettledOrNot(r);
    var at := r.(now := now);
    ResolveAt(r, at, ByNickname(nickname));
    ResolveErrors(r, ByNickname(nickname));
    var i := GuestNamed(r, ByNickname(nickname));
    OnlyNamed(r, ByNickname(nickname));
  }

  lemma OnlyNamed(r: Room, target: MemberRef)
    requires RoomInv(r)
    ensures forall m :: m in r.table.members && Names(target, m) ==>
      Resolve(r, target).Ok? && Resolve(r, target).value < |r.table.members| &&
        m == r.table.members[Resolve(r, target).value]
  {
    hide Resolve, LinkInv, QueueInv, LimitsInv, MarksInv, EpochInv;
    var i := GuestNamed(r, target);
    forall m | m in r.table.members && Names(target, m)
      ensures Resolve(r, target).Ok? && Resolve(r, target).value < |r.table.members| &&
        m == r.table.members[Resolve(r, target).value] {
      var k :| 0 <= k < |r.table.members| && r.table.members[k] == m;
      var j := Resolve(r, target).value;
      NamedTwice(r.table.members, target, k, j);
    }
  }

  lemma NamedTwice(members: seq<Member>, target: MemberRef, i: nat, j: nat)
    requires AllApart(members) && i < |members| && j < |members| && Names(target, members[i]) &&
      Names(target, members[j])
    ensures i == j
  {
  }

  // ---- the end of a transition ---------------------------------------------------------------------------

  lemma NobodyRetained(ids: seq<MemberId>, id: MemberId)
    requires forall k :: 0 <= k < |ids| ==> ids[k] == id
    ensures RetainNot(ids, id) == []
    decreases |ids|
  {
    if ids != [] { NobodyRetained(ids[..|ids| - 1], id); }
  }

  // The last missing acknowledgement of the pending epoch settles the room: everything deferred goes
  // out in order, and the host is reminded of the timeout it had set.
  lemma {:induction false} LastAcknowledgement(r: Room, c: ConnectionId, id: MemberId, now: Time)
    requires RoomInv(r) && r.phase == EpochTransition && MemberOf(r.entries, c) == Some(id)
    requires forall x :: x in r.pending.value.awaiting <==> x == id
    ensures var (r', reply) := Handle(r, EpochAck(c, r.epoch), now);
      && r' == r.(now := now, pending := None, epochKey := Some(CurrentKey(r)), deferred := [],
          phase := if r.policyOpen then Open else Locked)
      && reply == Ok(r.deferred +
          if r.roomTimeout.Some? then [Notify(TimeoutRebroadcast(r.roomTimeout.value))] else [])
  {
    hide RosterInv, MarksInv;
    var late := r.pending.value.awaiting;
    assert forall k :: 0 <= k < |late| ==> late[k] in late;
    NobodyRetained(late, id);
    assert late[0] in late;
  }

  // ---- where nothing happens --------------------------------------------------------------------------------

  // What a room in transition attends to: acknowledgements, losses, the deadline, the end, a report, and
  // chat.
  predicate Attended(event: Event) {
    || event.EpochAck? || event.ConnectionLost? || event.TimeoutExpired? || event.EpochMaintenance?
    || event.CloseRequested? || event.TorStopped? || event == OnHostCommand(Requests) || event.ChatReceived?
  }

  // Anything else is refused while an epoch is pending, everything is once the room is closed, and an
  // acknowledgement of an epoch that is not pending is no news.
  lemma {:induction false} Unattended(r: Room, event: Event, now: Time)
    requires RoomInv(r)
    ensures r.phase == EpochTransition && !Attended(event) ==>
      Handle(r, event, now) == (r.(now := now), Err(EpochTransitionInProgress))
    ensures r.phase == Destroyed ==> Handle(r, event, now) == (r.(now := now), Err(RoomClosed))
    ensures r.phase != Destroyed && event.EpochAck? && (r.pending.None? || event.epoch != r.epoch) ==>
      Handle(r, event, now) == (r.(now := now), Ok([]))
    ensures Quiescent(r) && event.EpochMaintenance? ==> Handle(r, event, now) == (r.(now := now), Ok([]))
  {
    hide RosterInv, MarksInv;
  }

  // ---- how a room starts ---------------------------------------------------------------------------------------

  // The host alone is in the room, under the limits that were given, with the first epoch wrapped for it
  // and an invitation announced.
  lemma {:induction false} RoomStarts(host: HostIdentity, memberLimit: nat, requestLimit: nat, within: Time)
    ensures var (r, actions) := Started(host, memberLimit, requestLimit, within);
      && r.table.members == [Member(HOST_ID, host.connection, host.nickname, DEFAULT_COLOR, true, host.ed25519,
        host.x25519, 1)]
      && r.table.limit == memberLimit && r.table.nextId == 1
      && r.queue == Queue(requestLimit, 0, []) && r.timeouts == [] && r.roomTimeout == None && r.limits == map[]
      && r.entries == map[host.connection := Entry(false, ActiveMember(HOST_ID))]
      && r.hostConnection == host.connection && r.hostKey == host.signingKey && r.acknowledgeWithin == within
      && r.policyOpen && r.phase == EpochTransition && r.epoch == 1 && r.epochKey == None && r.deferred == []
      && r.pending == Some(PendingEpoch(1, EpochKey(0), [HOST_ID], 0.0))
      && actions == [Notify(InvitationRotated),
        SendTo(host.connection, EpochWrap(1, EpochKey(0), HOST_ID, host.x25519))]
  {
    assert IdsOf([HostMember(host.connection, host.nickname, host.ed25519, host.x25519)]) == [HOST_ID];
  }
}
