// Who has to go when, told by the event alone: which members an event sends away, what is left of
// the room without them, and when a room closes.
module Departures {
  import opened Wrappers
  import opened RoomTypes
  import opened Members
  import opened Registry
  import opened Requests
  import opened Actor
  import opened ActorInvariants
  import opened ActorMoves
  import opened MemberViews
  import opened Transitions

  // ---- whom an event sends away ------------------------------------------------------------

  predicate Names(target: MemberRef, m: Member) {
    match target
    case ById(id) => m.id == id
    case ByNickname(nickname) => nickname.text != "" && m.nickname == nickname
  }

  predicate ChecksDeadline(r: Room, event: Event) {
    r.phase == EpochTransition && (event.EpochMaintenance? || (event.TimeoutExpired? && event.acknowledgement))
  }

  predicate Drops(r: Room, event: Event, c: ConnectionId) {
    (event.ConnectionLost? || event.TimeoutExpired?) && event.connection == c && !ChecksDeadline(r, event)
  }

  predicate Closes(r: Room, event: Event, now: Time) {
    || event.CloseRequested? || event.TorStopped? || Drops(r, event, r.hostConnection)
    || (ChecksDeadline(r, event) && Overdue(r, now) && HOST_ID in r.pending.value.awaiting)
  }

  predicate SendsAway(r: Room, event: Event, now: Time, m: Member) {
    && !m.isHost && r.phase != Destroyed && !Closes(r, event, now)
    && (|| Drops(r, event, m.connection)
        || (ChecksDeadline(r, event) && Overdue(r, now) && m.id in r.pending.value.awaiting)
        || (Quiescent(r) && event == OnMemberCommand(m.connection, Leave))
        || (Quiescent(r) && event == MemberDeparted(m.id))
        || (Quiescent(r) && Kicks(event, m)))
  }

  predicate Kicks(event: Event, m: Member) {
    event.OnHostCommand? && event.hostCommand.Kick? && Names(event.hostCommand.target, m)
  }

  function SentAway(r: Room, event: Event, now: Time): set<MemberId> {
    set i | 0 <= i < |r.table.members| && SendsAway(r, event, now, r.table.members[i]) :: r.table.members[i].id
  }

  // ---- what is left -------------------------------------------------------------------------

  ghost predicate Opened(r: Room, r': Room) {
    && r'.epoch == r.epoch + 1 && r'.phase == EpochTransition && r'.pending.Some?
    && r'.pending.value.epoch == r'.epoch && r'.pending.value.startedAt == r'.now
    && forall id :: id in r'.pending.value.awaiting <==> id in IdSet(r'.table.members)
  }

  predicate HeldBy(members: seq<Member>, c: ConnectionId, gone: set<MemberId>) {
    exists i :: 0 <= i < |members| && members[i].connection == c && members[i].id in gone
  }

  ghost predicate Stripped(r: Room, r': Room, gone: set<MemberId>) {
    && (forall m :: m in r'.table.members <==> m in r.table.members && m.id !in gone)
    && (forall c :: c in r'.entries <==> c in r.entries && !HeldBy(r.table.members, c, gone))
    && (forall c :: c in r'.entries ==> r'.entries[c] == r.entries[c])
    && (forall id :: id in r'.limits <==> id in r.limits && id !in gone)
    && (forall id :: id in r'.limits ==> r'.limits[id] == r.limits[id])
    && r'.table.limit == r.table.limit && r'.table.nextId == r.table.nextId
  }

  // The members `gone` are gone, for the rest nothing has changed, and the next epoch is pending.
  ghost predicate Removed(r: Room, r': Room, gone: set<MemberId>) {
    && Stripped(r, r', gone) && Opened(r, r')
    && r'.queue == r.queue && r'.policyOpen == r.policyOpen && r'.roomTimeout == r.roomTimeout
  }

  // A signed event that waits to be sent on the connection.
  predicate Queued(r: Room, c: ConnectionId, body: EventBody) {
    exists i :: 0 <= i < |r.deferred| && Announces(r, r.deferred[i], c, body)
  }

  predicate Announces(r: Room, a: Action, c: ConnectionId, body: EventBody) {
    && a.SendTo? && a.connection == c && a.message.RoomEvent? && a.message.body == body && a.message.epoch == r.epoch
    && a.message.signature == Signature(r.hostKey, a.message.sequence, r.epoch, body)
  }

  // Everybody who is left will be told.
  ghost predicate Announced(r: Room, gone: set<MemberId>, kicked: bool) {
    forall m, id :: m in r.table.members && id in gone ==>
      Queued(r, m.connection, if kicked then Kicked(id) else Left(id))
  }

  // ---- one removal ------------------------------------------------------------------------------

  lemma SelfStripped(r: Room)
    ensures Stripped(r, r, {})
  {
  }

  lemma WithoutMembers(members: seq<Member>, i: nat)
    requires AllApart(members) && i < |members|
    ensures forall m :: m in Without(members, i) <==> m in members && m.id != members[i].id
  {
    var rest := Without(members, i);
    forall m | m in rest ensures m in members && m.id != members[i].id {
      var k :| 0 <= k < |rest| && rest[k] == m;
      assert m == members[if k < i then k else k + 1];
    }
    forall m | m in members && m.id != members[i].id ensures m in rest {
      var k :| 0 <= k < |members| && members[k] == m;
      assert rest[if k < i then k else k - 1] == m;
    }
  }

  lemma DropStrips(r: Room, i: nat)
    requires AllApart(r.table.members) && i < |r.table.members|
    ensures Stripped(r, DropMember(r, i), {r.table.members[i].id})
  {
    hide Without;
    WithoutMembers(r.table.members, i);
    OnlyHolder(r.table.members, i);
  }

  lemma OnlyHolder(members: seq<Member>, i: nat)
    requires AllApart(members) && i < |members|
    ensures forall c :: HeldBy(members, c, {members[i].id}) <==> c == members[i].connection
  {
    forall c | HeldBy(members, c, {members[i].id}) ensures c == members[i].connection {
      var k :| 0 <= k < |members| && members[k].connection == c && members[k].id == members[i].id;
      SameIdSameMember(members, i, k);
    }
  }

  lemma SendAllReaches(members: seq<Member>, skip: Skip, message: Message, m: Member)
    requires m in members && !Skipped(skip, m)
    ensures SendTo(m.connection, message) in SendAll(members, skip, message)
    decreases |members|
  {
    var before := members[..|members| - 1];
    assert members == before + [members[|members| - 1]];
    if m in before { SendAllReaches(before, skip, message, m); }
  }

  lemma Found(deferred: seq<Action>, r: Room, a: Action, c: ConnectionId, body: EventBody)
    requires a in deferred && deferred == r.deferred && Announces(r, a, c, body)
    ensures Queued(r, c, body)
  {
  }

  // Announcing one departure tells everybody and forgets no earlier announcement.
  lemma GoneIsAnnounced(r: Room, id: MemberId, kicked: bool, gone: set<MemberId>)
    requires Announced(r, gone, kicked)
    ensures Announced(QueueMemberGone(r, id, kicked), gone + {id}, kicked)
  {
    hide Announces, SendAll;
    var r' := QueueMemberGone(r, id, kicked);
    var body := GoneBody(id, kicked);
    var event := SignedEvent(r.(sequence := r.sequence + 1), body);
    forall m, x | m in r'.table.members && x in gone + {id}
      ensures Queued(r', m.connection, if kicked then Kicked(x) else Left(x)) {
      if x == id {
        SendAllReaches(r.table.members, Nobody, event, m);
        SignedAnnounces(r', event, m.connection, body);
        Found(r'.deferred, r', SendTo(m.connection, event), m.connection, body);
      } else {
        var b := if kicked then Kicked(x) else Left(x);
        assert Queued(r, m.connection, b);
        var k :| 0 <= k < |r.deferred| && Announces(r, r.deferred[k], m.connection, b);
        SameAnnouncement(r, r', r.deferred[k], m.connection, b);
        assert r'.deferred[k] == r.deferred[k];
      }
    }
  }

  lemma SignedAnnounces(r: Room, event: Message, c: ConnectionId, body: EventBody)
    requires event.RoomEvent? && event.body == body && event.epoch == r.epoch
    requires event.signature == Signature(r.hostKey, event.sequence, r.epoch, body)
    ensures Announces(r, SendTo(c, event), c, body)
  {
  }

  lemma SameAnnouncement(r: Room, r': Room, a: Action, c: ConnectionId, body: EventBody)
    requires Announces(r, a, c, body) && r'.epoch == r.epoch && r'.hostKey == r.hostKey
    ensures Announces(r', a, c, body)
  {
  }

  lemma BeginOpens(r: Room)
    ensures Opened(r, BeginEpochTransition(r).0) && BeginEpochTransition(r).0.now == r.now
  {
    IdsOfIsIdSet(r.table.members);
  }

  // Removing a member by id, for a leave or a kick.
  lemma RemovalStrips(r: Room, i: nat, kicked: bool)
    requires RoomInv(r) && i < |r.table.members| && !r.table.members[i].isHost
    ensures var m := r.table.members[i];
      m.id != HOST_ID && RemoveMember(r, m.id, kicked).Some?
    ensures var m := r.table.members[i];
      var (r', wraps, gone) := RemoveMember(r, m.id, kicked).value;
      && Removed(r, r', {m.id}) && Announced(r', {m.id}, kicked) && gone == Some(m)
      && r' == r.(table := r'.table, entries := r'.entries, limits := r'.limits, epoch := r'.epoch,
        nextKey := r'.nextKey,
          replay := r'.replay, sequence := r'.sequence, phase := r'.phase, pending := r'.pending,
            deferred := r'.deferred)
  {
    hide RoomInv, Stripped, SendAll, WrapAll, IdsOf, Announced;
    RoomTableIsApart(r);
    MemberZeroIsHost(r.table, r.hostConnection, i);
    FoundAtIndex(r.table, r.hostConnection, i);
    var d := DropMember(r, i);
    DropStrips(r, i);
    BeginOpens(d);
    var b := BeginEpochTransition(d).0;
    var id := r.table.members[i].id;
    NothingAnnounced(b, kicked);
    GoneIsAnnounced(b, id, kicked, {});
    assert {} + {id} == {id};
    SameStripped(r, d, QueueMemberGone(b, id, kicked), {id});
  }

  lemma NothingAnnounced(r: Room, kicked: bool)
    ensures Announced(r, {}, kicked)
  {
  }

  lemma SameStripped(r: Room, a: Room, b: Room, gone: set<MemberId>)
    requires Stripped(r, a, gone) && b.table == a.table && b.entries == a.entries && b.limits == a.limits
    ensures Stripped(r, b, gone)
  {
  }

  // ---- who is told what ------------------------------------------------------------------------------

  predicate IsKick(event: Event) { event.OnHostCommand? && event.hostCommand.Kick? }

  predicate Farewell(r: Room, event: Event, m: Member, actions: seq<Action>) {
    && Notify(if IsKick(event) then MemberKicked(m.id, m.nickname) else MemberLeft(m.id, m.nickname)) in actions
    && (event.OnMemberCommand? ==> SendTo(m.connection, Shutdown) in actions)
    && (event.OnMemberCommand? || IsKick(event) || ChecksDeadline(r, event) ==>
      CloseConnection(m.connection) in actions)
  }

  // What an event that is not chat does to the membership.
  ghost predicate Departs(r: Room, event: Event, now: Time, r': Room, reply: Reply) {
    var gone := SentAway(r, event, now);
    if Closes(r, event, now) then
      r' == r.(now := now, pending := r'.pending, phase := Destroyed) &&
      reply == Ok([ShutdownAll(r.entries.Keys), Notify(RoomClosedNotice)])
    else
      && r'.phase != Destroyed && r'.now == now
      && (gone == {} ==> IdSet(r.table.members) <= IdSet(r'.table.members))
      && (gone != {} ==>
        && reply.Ok? && Removed(r, r', gone) && Announced(r', gone, IsKick(event))
        && forall i :: 0 <= i < |r.table.members| && r.table.members[i].id in gone ==>
          Farewell(r, event, r.table.members[i], reply.value))
  }

  lemma OneSentAway(r: Room, event: Event, now: Time, i: nat)
    requires RoomInv(r) && i < |r.table.members|
    requires forall k :: 0 <= k < |r.table.members| ==> (SendsAway(r, event, now, r.table.members[k]) <==> k == i)
    ensures SentAway(r, event, now) == {r.table.members[i].id}
  {
    hide RoomInv, SendsAway;
  }

  lemma NobodySentAway(r: Room, event: Event, now: Time)
    requires forall k :: 0 <= k < |r.table.members| ==> !SendsAway(r, event, now, r.table.members[k])
    ensures SentAway(r, event, now) == {}
  {
    hide SendsAway;
  }

  // The one member that an event names.
  lemma RemovalDeparts(r: Room, event: Event, now: Time, i: nat, kicked: bool, reply: Reply, at: Room)
    requires RoomInv(r) && i < |r.table.members| && !r.table.members[i].isHost && kicked == IsKick(event)
    requires !Closes(r, event, now) && SentAway(r, event, now) == {r.table.members[i].id}
    requires at == r.(now := now, timeouts := at.timeouts) && RoomInv(at)
    requires reply.Ok? && Farewell(r, event, r.table.members[i], reply.value)
    ensures RemoveMember(at, r.table.members[i].id, kicked).Some?
    ensures Departs(r, event, now, RemoveMember(at, r.table.members[i].id, kicked).value.0, reply)
  {
    hide RoomInv, RemoveMember, Closes, SentAway, Announced, Farewell;
    RemovalStrips(at, i, kicked);
    RoomTableIsApart(r);
    hide Stripped;
    StrippedAt(r, at, RemoveMember(at, r.table.members[i].id, kicked).value.0, {r.table.members[i].id});
    forall k | 0 <= k < |r.table.members| && r.table.members[k].id in {r.table.members[i].id}
      ensures Farewell(r, event, r.table.members[k], reply.value) {
      SameIdSameMember(r.table.members, i, k);
    }
  }

  lemma StrippedAt(r: Room, at: Room, r': Room, gone: set<MemberId>)
    requires Stripped(at, r', gone) && at.table == r.table && at.entries == r.entries && at.limits == r.limits
    ensures Stripped(r, r', gone)
  {
  }

  // ---- event by event -----------------------------------------------------------------------------

  lemma NotClosed(r: Room, now: Time)
    requires RoomInv(r) && r.phase != Destroyed
    ensures RoomInv(r.(now := now)) && r.(now := now).phase == r.phase
  {
  }

  // The guest on a connection, if there is one.
  lemma GuestOn(r: Room, c: ConnectionId) returns (i: Option<nat>)
    requires RoomInv(r)
    ensures i.Some? ==>
      i.value < |r.table.members| && !r.table.members[i.value].isHost
      && r.table.members[i.value].connection == c && MemberOf(r.entries, c) == Some(r.table.members[i.value].id)
      && r.table.members[i.value].id != HOST_ID && c != r.hostConnection
    ensures i.None? ==>
      c == r.hostConnection ||
      (MemberOf(r.entries, c).None? && PositionOfConnection(r.table.members, c).None?)
    ensures forall k :: 0 <= k < |r.table.members| ==>
      (r.table.members[k].connection == c && !r.table.members[k].isHost <==> i == Some(k))
  {
    hide LinkInv, QueueInv, LimitsInv, MarksInv, EpochInv;
    MemberOfConnection(r, c);
    i := PositionOfConnection(r.table.members, c);
    if i.Some? { MemberZeroIsHost(r.table, r.hostConnection, i.value); }
    if c == r.hostConnection { i := None; }
    forall k | 0 <= k < |r.table.members| && r.table.members[k].connection == c && !r.table.members[k].isHost
      ensures i == Some(k) {
      MemberZeroIsHost(r.table, r.hostConnection, k);
      SameIdSameMember(r.table.members, k, i.value);
    }
  }

  lemma LeaveDeparts(r: Room, c: ConnectionId, now: Time)
    requires RoomInv(r) && Quiescent(r)
    ensures var event := OnMemberCommand(c, Leave);
      var (r', reply) := OnLeave(r.(now := now), c);
      && Departs(r, event, now, r', reply)
      && (SentAway(r, event, now) == {} ==>
        r' == r.(now := now) && reply == Err(if c == r.hostConnection then HostCannotLeave else NotAMember))
  {
    hide RoomInv, Removed, Announced, RemoveMember;
    var event := OnMemberCommand(c, Leave);
    var at := r.(now := now);
    NotClosed(r, now);
    var i := GuestOn(r, c);
    if i.None? { NobodySentAway(r, event, now); }
    else {
      OneSentAway(r, event, now, i.value);
      RemovalStrips(at, i.value, false);
      RemovalDeparts(r, event, now, i.value, false, OnLeave(at, c).1, at);
    }
  }

  lemma DepartedDeparts(r: Room, id: MemberId, now: Time)
    requires RoomInv(r) && Quiescent(r)
    ensures var event := MemberDeparted(id);
      var (r', reply) := OnMemberDeparted(r.(now := now), id);
      && Departs(r, event, now, r', reply)
      && (SentAway(r, event, now) == {} ==>
        r' == r.(now := now) && reply == if id == HOST_ID then Err(HostCannotLeave) else Ok([]))
  {
    hide RoomInv, Removed, Announced;
    var event := MemberDeparted(id);
    var at := r.(now := now);
    NotClosed(r, now);
    var i := GuestNamed(r, ById(id));
    if i.None? { NobodySentAway(r, event, now); }
    else {
      OneSentAway(r, event, now, i.value);
      RemovalStrips(at, i.value, false);
      RemovalDeparts(r, event, now, i.value, false, OnMemberDeparted(at, id).1, at);
    }
  }

  // The guest that a reference names, if there is one: no reference names two.
  lemma GuestNamed(r: Room, target: MemberRef) returns (i: Option<nat>)
    requires RoomInv(r)
    ensures i.Some? ==>
      i.value < |r.table.members| && Resolve(r, target) == Ok(i.value)
      && r.table.members[i.value].id != HOST_ID && !r.table.members[i.value].isHost
    ensures i.None? && Resolve(r, target).Ok? ==> r.table.members[Resolve(r, target).value].isHost
    ensures Resolve(r, target).Ok? ==>
      Resolve(r, target).value < |r.table.members| && Names(target, r.table.members[Resolve(r, target).value])
      && (r.table.members[Resolve(r, target).value].isHost <==> r.table.members[Resolve(r, target).value].id == HOST_ID)
    ensures Resolve(r, target).Err? ==> forall m :: m in r.table.members ==> !Names(target, m)
    ensures forall k :: 0 <= k < |r.table.members| ==>
      (Names(target, r.table.members[k]) && !r.table.members[k].isHost <==> i == Some(k))
  {
    hide LinkInv, QueueInv, LimitsInv, MarksInv, EpochInv;
    var found := Resolve(r, target);
    i := None;
    if found.Ok? {
      MemberZeroIsHost(r.table, r.hostConnection, found.value);
      if !r.table.members[found.value].isHost { i := Some(found.value); }
      forall k | 0 <= k < |r.table.members| && Names(target, r.table.members[k]) ensures k == found.value {
        assert k < found.value ==> Apart(r.table.members[k], r.table.members[found.value]);
        assert found.value < k ==> Apart(r.table.members[found.value], r.table.members[k]);
      }
    }
  }

  lemma KickDeparts(r: Room, target: MemberRef, now: Time)
    requires RoomInv(r) && Quiescent(r)
    ensures var event := OnHostCommand(Kick(target));
      var (r', reply) := OnKick(r.(now := now), target);
      && Departs(r, event, now, r', reply)
      && (SentAway(r, event, now) == {} ==> r' == r.(now := now) && reply == Err(
          if exists m :: m in r.table.members && Names(target, m) then CannotKickHost
          else if target.ByNickname? && target.nickname.text == "" then EmptyMemberRef
          else UnknownMember))
  {
    hide RoomInv, Removed, Announced, RemoveMember, Resolve;
    var event := OnHostCommand(Kick(target));
    var at := r.(now := now);
    NotClosed(r, now);
    var i := GuestNamed(r, target);
    ResolveAt(r, at, target);
    if i.None? {
      NobodySentAway(r, event, now);
      ResolveErrors(r, target);
    } else {
      OneSentAway(r, event, now, i.value);
      RemovalStrips(at, i.value, true);
      RemovalDeparts(r, event, now, i.value, true, OnKick(at, target).1, at);
    }
  }

  lemma ResolveAt(r: Room, at: Room, target: MemberRef)
    requires at.table == r.table
    ensures Resolve(at, target) == Resolve(r, target)
  {
  }

  lemma ResolveErrors(r: Room, target: MemberRef)
    ensures Resolve(r, target).Err? ==>
      Resolve(r, target).error == if target.ByNickname? && target.nickname.text == "" then EmptyMemberRef
        else UnknownMember
  {
  }

  lemma CloseDeparts(r: Room, event: Event, now: Time, at: Room)
    requires r.phase != Destroyed && Closes(r, event, now)
    requires at == r.(now := now, pending := at.pending)
    ensures Departs(r, event, now, CloseRoom(at).0, CloseRoom(at).1)
  {
  }

  lemma LostDeparts(r: Room, event: Event, c: ConnectionId, now: Time)
    requires RoomInv(r) && r.phase != Destroyed && (event.ConnectionLost? || event.TimeoutExpired?) &&
      Drops(r, event, c)
    ensures var (r', reply) := OnConnectionLost(r.(now := now), c); Departs(r, event, now, r', reply)
  {
    hide RoomInv, Removed, Announced, RemoveMember, TimeoutsNotOf, RejectTimeoutsOf, TakeAt;
    var at := r.(now := now);
    NotClosed(r, now);
    if c == r.hostConnection { CloseDeparts(r, event, now, at); }
    else {
      var i := GuestOn(r, c);
      var r0 := at.(timeouts := TimeoutsNotOf(r.timeouts, c));
      if i.None? { NobodySentAway(r, event, now); }
      else {
        var m := r.table.members[i.value];
        OneSentAway(r, event, now, i.value);
        WithdrawnKeeps(at, c);
        RemovalStrips(r0, i.value, false);
        LostGuest(r0, c, m.id);
        RemovalDeparts(r, event, now, i.value, false, OnConnectionLost(at, c).1, r0);
      }
    }
  }

  lemma WithdrawnKeeps(r: Room, c: ConnectionId)
    requires RoomInv(r)
    ensures RoomInv(r.(timeouts := TimeoutsNotOf(r.timeouts, c)))
  {
    hide TableInv, LinkInv, QueueInv, LimitsInv, MarksInv, PendingInv;
    WithdrawTimeoutsKeeps(r, c);
  }

  lemma LostGuest(r: Room, c: ConnectionId, id: MemberId)
    requires RoomInv(r) && MemberOf(r.entries, c) == Some(id) && id != HOST_ID
    ensures RemoveMember(r, id, false).Some? && RemoveMember(r, id, false).value.2.Some?
    ensures var r1 := RemoveMember(r, id, false).value.0; r1.(entries := r1.entries - {c}) == r1
  {
    hide RosterInv;
    LostConnectionIsGone(r, c, id, false);
  }

  // ---- late acknowledgements ------------------------------------------------------------------------

  lemma StripMore(r: Room, a: Room, b: Room, gone: set<MemberId>, id: MemberId)
    requires Stripped(r, a, gone) && Stripped(a, b, {id}) && id !in gone
    ensures Stripped(r, b, gone + {id})
  {
    forall c ensures c in b.entries <==> c in r.entries && !HeldBy(r.table.members, c, gone + {id}) {
      HeldByMore(r.table.members, a.table.members, c, gone, id);
    }
  }

  lemma HeldByMore(before: seq<Member>, after: seq<Member>, c: ConnectionId, gone: set<MemberId>, id: MemberId)
    requires id !in gone && forall m :: m in after <==> m in before && m.id !in gone
    ensures HeldBy(before, c, gone + {id}) <==> HeldBy(before, c, gone) || HeldBy(after, c, {id})
  {
    if HeldBy(before, c, gone + {id}) && !HeldBy(before, c, gone) {
      var k :| 0 <= k < |before| && before[k].connection == c && before[k].id in gone + {id};
      assert before[k] in after;
      var j :| 0 <= j < |after| && after[j] == before[k];
    }
    if HeldBy(after, c, {id}) {
      var j :| 0 <= j < |after| && after[j].connection == c && after[j].id in {id};
      assert after[j] in before;
      var k :| 0 <= k < |before| && before[k] == after[j];
    }
    if HeldBy(before, c, gone) {
      var k :| 0 <= k < |before| && before[k].connection == c && before[k].id in gone;
    }
  }

  function AsSet(ids: seq<MemberId>): set<MemberId> { set id | id in ids }

  lemma AsSetSnoc(ids: seq<MemberId>, id: MemberId)
    ensures AsSet(ids + [id]) == AsSet(ids) + {id}
    ensures id in AsSet(ids) ==> AsSet(ids + [id]) == AsSet(ids)
  {
  }

  ghost predicate Waved(members: seq<Member>, gone: set<MemberId>, actions: seq<Action>) {
    forall m :: m in members && m.id in gone ==>
      CloseConnection(m.connection) in actions && Notify(MemberLeft(m.id, m.nickname)) in actions
  }

  // Evicting strips the room of exactly the members that were listed, and says goodbye to each.
  lemma EvictStrips(r: Room, ids: seq<MemberId>)
    requires RosterInv(r) && HOST_ID !in ids
    requires forall id :: id in ids ==> id in IdSet(r.table.members)
    ensures var (r', actions, removed) := EvictAll(r, ids);
      && Stripped(r, r', AsSet(ids)) && AsSet(removed) == AsSet(ids) && Waved(r.table.members, AsSet(ids), actions)
      && r' == r.(table := r'.table, entries := r'.entries, limits := r'.limits)
    decreases |ids|
  {
    hide RosterInv, Stripped, DropMember, AsSet, Waved, IdSet;
    if ids == [] { NobodyEvicted(r); }
    else {
      var before := ids[..|ids| - 1];
      var id := ids[|ids| - 1];
      assert ids == before + [id];
      assert forall x :: x in before ==> x in ids;
      EvictStrips(r, before);
      EvictKeeps(r, before);
      AsSetSnoc(before, id);
      var (r1, actions, removed) := EvictAll(r, before);
      var i := IndexOfId(r, r1, before, id);
      if i.Some? {
        var m := r1.table.members[i.value];
        DropStrips(r1, i.value);
        DropFrame(r1, i.value);
        StripMore(r, r1, DropMember(r1, i.value), AsSet(before), id);
        WaveOneMore(r, r1, before, i.value, actions,
          [CloseConnection(m.connection), Notify(MemberLeft(id, m.nickname))]);
        AsSetSnoc(removed, id);
      }
    }
  }

  lemma NobodyEvicted(r: Room)
    ensures Stripped(r, r, AsSet([])) && Waved(r.table.members, AsSet([]), [])
  {
    assert AsSet([]) == {};
  }

  // Where the next one is, unless it is gone already.
  lemma IndexOfId(r: Room, r1: Room, before: seq<MemberId>, id: MemberId) returns (i: Option<nat>)
    requires RosterInv(r1) && IdSet(r1.table.members) == IdSet(r.table.members) - (set x | x in before)
    requires id in IdSet(r.table.members)
    ensures PositionOfId(r1.table.members, id) == i && AllApart(r1.table.members)
    ensures i.None? <==> id in AsSet(before)
    ensures i.Some? ==> i.value < |r1.table.members| && r1.table.members[i.value].id == id && id !in before
  {
    i := PositionOfId(r1.table.members, id);
    if i.Some? { assert r1.table.members[i.value].id in IdSet(r1.table.members); }
    else { assert id !in IdSet(r1.table.members); }
  }

  lemma WaveOneMore(r: Room, r1: Room, before: seq<MemberId>, i: nat, actions: seq<Action>, more: seq<Action>)
    requires Stripped(r, r1, AsSet(before)) && i < |r1.table.members| && AllApart(r1.table.members)
    requires r1.table.members[i].id !in before && Waved(r.table.members, AsSet(before), actions)
    requires var m := r1.table.members[i]; more == [CloseConnection(m.connection), Notify(MemberLeft(m.id, m.nickname))]
    ensures Waved(r.table.members, AsSet(before) + {r1.table.members[i].id}, actions + more)
  {
    forall m | m in r.table.members && m.id == r1.table.members[i].id ensures m == r1.table.members[i] {
      assert m in r1.table.members;
      var k :| 0 <= k < |r1.table.members| && r1.table.members[k] == m;
      SameIdSameMember(r1.table.members, i, k);
    }
    assert more[0] in more && more[1] in more;
  }

  lemma AllGoneAnnounced(r: Room, ids: seq<MemberId>)
    ensures Announced(QueueAllGone(r, ids, false), AsSet(ids), false)
    decreases |ids|
  {
    hide Announced, QueueMemberGone, AsSet;
    if ids == [] { NobodyAnnounced(r); }
    else {
      var before := ids[..|ids| - 1];
      AllGoneAnnounced(r, before);
      GoneIsAnnounced(QueueAllGone(r, before, false), ids[|ids| - 1], false, AsSet(before));
      assert ids == before + [ids[|ids| - 1]];
      AsSetSnoc(before, ids[|ids| - 1]);
    }
  }

  lemma NobodyAnnounced(r: Room)
    ensures Announced(r, AsSet([]), false)
  {
  }

  // An overdue acknowledgement costs its member the place.
  lemma DeadlineDeparts(r: Room, event: Event, now: Time)
    requires RoomInv(r) && ChecksDeadline(r, event)
    ensures var (r', reply) := OnEpochTimeout(r.(now := now));
      Departs(r, event, now, r', reply) && (!Overdue(r, now) ==> r' == r.(now := now) && reply == Ok([]))
  {
    hide RosterInv, MarksInv, Stripped, Announced, EvictAll, QueueAllGone, AsSet, Waved, SentAway, WrapAll, IdsOf;
    var at := r.(now := now, pending := None);
    if Overdue(r, now) && HOST_ID in r.pending.value.awaiting { CloseDeparts(r, event, now, at); }
    else if Overdue(r, now) {
      var late := r.pending.value.awaiting;
      LateAreSentAway(r, event, now);
      SameRoster(r, at);
      EvictStrips(at, late);
      var (r1, actions, removed) := EvictAll(at, late);
      BeginOpens(r1);
      var b := BeginEpochTransition(r1).0;
      QueueAllGoneFrame(b, removed, false);
      AllGoneAnnounced(b, removed);
      var r' := QueueAllGone(b, removed, false);
      SameStripped(at, r1, r', AsSet(late));
      StrippedAt(r, at, r', AsSet(late));
      WavedIsFarewell(r, event, AsSet(late), actions, BeginEpochTransition(r1).1);
      SameAnnounced(QueueAllGone(b, removed, false), r', AsSet(late));
    } else { NobodyLate(r, event, now); }
  }

  lemma SameRoster(r: Room, at: Room)
    requires RosterInv(r) && at == r.(now := at.now, pending := at.pending)
    ensures RosterInv(at)
  {
  }

  lemma SameAnnounced(a: Room, b: Room, gone: set<MemberId>)
    requires Announced(a, gone, false) && a == b
    ensures Announced(b, gone, false)
  {
  }

  lemma NobodyLate(r: Room, event: Event, now: Time)
    requires ChecksDeadline(r, event) && !Overdue(r, now)
    ensures SentAway(r, event, now) == {} && (r.phase != Destroyed ==> !Closes(r, event, now))
  {
  }

  lemma LateAreSentAway(r: Room, event: Event, now: Time)
    requires RoomInv(r) && ChecksDeadline(r, event) && Overdue(r, now) && HOST_ID !in r.pending.value.awaiting
    ensures SentAway(r, event, now) == AsSet(r.pending.value.awaiting) != {}
    ensures forall id :: id in r.pending.value.awaiting ==> id in IdSet(r.table.members)
    ensures !Closes(r, event, now)
  {
    hide LinkInv, QueueInv, LimitsInv, MarksInv;
    var late := r.pending.value.awaiting;
    forall id | id in late ensures id in SentAway(r, event, now) {
      var i :| 0 <= i < |r.table.members| && r.table.members[i].id == id;
      MemberZeroIsHost(r.table, r.hostConnection, i);
      assert SendsAway(r, event, now, r.table.members[i]);
    }
    assert late[0] in late;
  }

  lemma WavedIsFarewell(r: Room, event: Event, gone: set<MemberId>, actions: seq<Action>, wraps: seq<Action>)
    requires Waved(r.table.members, gone, actions) && !event.OnMemberCommand? && !IsKick(event)
    ensures forall i :: 0 <= i < |r.table.members| && r.table.members[i].id in gone ==>
      Farewell(r, event, r.table.members[i], actions + wraps)
  {
  }

  // ---- every event ---------------------------------------------------------------------------------

  // Nothing else takes a member away.
  ghost predicate Stays(r: Room, now: Time, r': Room) {
    r'.phase != Destroyed && r'.now == now && IdSet(r.table.members) <= IdSet(r'.table.members)
  }

  lemma CommandStays(r: Room, command: HostCommand)
    requires RoomInv(r) && Quiescent(r) && !command.Kick?
    ensures Stays(r, r.now, OnHostCommandAt(r, command).0)
  {
    hide RoomInv, IdSet, OnAccept, SendAll, WithdrawAll, ConnectionsOf, NonMembers;
    if command.Accept? { AcceptStays(r, command.request); }
  }

  lemma MemberStays(r: Room, c: ConnectionId, command: MemberCommand)
    requires Quiescent(r) && !command.Leave?
    ensures Stays(r, r.now, OnMemberCommandAt(r, c, command).0)
  {
    hide IdSet, Recolored, Resolve;
    if command.SetColor? {
      RecoloredStays(r, if MemberOf(r.entries, c).Some? then MemberOf(r.entries, c).value else HOST_ID, command.color);
    }
  }

  lemma OthersStay(r: Room, event: Event, now: Time)
    requires RoomInv(r) && Quiescent(r) && !event.ChatReceived?
    requires !Closes(r, event, now) && !ChecksDeadline(r, event)
    requires !(event.ConnectionLost? || event.TimeoutExpired?) && !IsKick(event) && !event.MemberDeparted?
    requires event.OnMemberCommand? ==> !event.memberCommand.Leave?
    ensures var (r', reply) := Handle(r, event, now); Departs(r, event, now, r', reply)
  {
    hide IdSet, RosterInv, MarksInv, Removed, Announced, OnAccept, OnHostCommandAt, OnMemberCommandAt;
    NobodySentAway(r, event, now);
    NotClosed(r, now);
    var at := r.(now := now);
    if event.HostAccepted? { AcceptStays(at, event.request); }
    if event.OnHostCommand? { CommandStays(at, event.hostCommand); }
    if event.OnMemberCommand? { MemberStays(at, event.connection, event.memberCommand); }
  }

  lemma AcceptStays(r: Room, id: RequestId)
    ensures IdSet(r.table.members) <= IdSet(OnAccept(r, id).0.table.members)
    ensures OnAccept(r, id).0.phase != Destroyed || r.phase == Destroyed
    ensures OnAccept(r, id).0.now == r.now
  {
    hide SendAll, WrapAll, IdsOf, IdSet;
    forall m ensures IdSet(r.table.members) <= IdSet(r.table.members + [m]) { IdSetGrows(r.table.members, m); }
  }

  lemma IdSetGrows(members: seq<Member>, m: Member)
    ensures IdSet(members) <= IdSet(members + [m])
  {
    forall id | id in IdSet(members) ensures id in IdSet(members + [m]) {
      var i :| 0 <= i < |members| && members[i].id == id;
      assert (members + [m])[i].id == id;
    }
  }

  lemma RecoloredStays(r: Room, id: MemberId, color: Color)
    ensures var r' := Recolored(r, id, color);
      IdSet(r'.table.members) == IdSet(r.table.members) && r'.phase == r.phase && r'.now == r.now
  {
    var p := PositionOfId(r.table.members, id);
    if p.Some? {
      var after := SetColorAt(r.table, p.value, color).members;
      assert forall i :: 0 <= i < |after| ==> after[i].id == r.table.members[i].id;
    }
  }

  // Any event but chat, in any room that is not closed: who has to go is gone, and nobody else.
  lemma {:induction false} DeparturesExactly(r: Room, event: Event, now: Time)
    requires RoomInv(r) && r.phase != Destroyed && !event.ChatReceived?
    ensures var (r', reply) := Handle(r, event, now); Departs(r, event, now, r', reply)
  {
    hide RoomInv, Departs, OnConnectionLost, OnEpochTimeout, OnLeave, OnKick, OnMemberDeparted, OnAccept, OnReject,
      SetPolicy, OnNewId, OnColor, OnEpochAck, OnJoinRequested;
    SettledOrNot(r);
    if ChecksDeadline(r, event) { DeadlineDeparts(r, event, now); }
    else if event.ConnectionLost? || event.TimeoutExpired? { LostDeparts(r, event, event.connection, now); }
    else if event.CloseRequested? || event.TorStopped? { CloseDeparts(r, event, now, r.(now := now)); }
    else if r.phase != EpochTransition && event.OnMemberCommand? && event.memberCommand.Leave? {
      LeaveDeparts(r, event.connection, now);
    }
    else if r.phase != EpochTransition && IsKick(event) { KickDeparts(r, event.hostCommand.target, now); }
    else if r.phase != EpochTransition && event.MemberDeparted? { DepartedDeparts(r, event.member, now); }
    else if r.phase == EpochTransition { RefusedStays(r, event, now); }
    else { OthersStay(r, event, now); }
  }

  lemma SettledOrNot(r: Room)
    requires RoomInv(r) && r.phase != Destroyed
    ensures Quiescent(r) || r.phase == EpochTransition
  {
  }

  lemma RefusedStays(r: Room, event: Event, now: Time)
    requires r.phase == EpochTransition && !event.ChatReceived? && !ChecksDeadline(r, event)
    requires !event.ConnectionLost? && !event.TimeoutExpired? && !event.CloseRequested? && !event.TorStopped?
    ensures var (r', reply) := Handle(r, event, now); Departs(r, event, now, r', reply)
  {
    NobodySentAway(r, event, now);
  }
}
