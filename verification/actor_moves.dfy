// What one handled event does to the channels: every outcome of `Handle` is one of six moves,
// each saying exactly which messages go out and what stays as it was.
module ActorMoves {
  import opened Wrappers
  import opened RoomTypes
  import opened Members
  import opened Registry
  import opened Requests
  import opened Replay
  import opened RateLimit
  import opened Actor
  import opened ActorInvariants
  import ChatCrypto
  import Session

  // A member without the colour it chose.
  function Plain(m: Member): Member { m.(color := DEFAULT_COLOR) }

  function Roster(members: seq<Member>): (roster: seq<Member>)
    ensures |roster| == |members|
  {
    seq(|members|, i requires 0 <= i < |members| => Plain(members[i]))
  }

  // Actions that no chat session reacts to.
  predicate Quiet(a: Action) {
    a.SendTo? ==> a.message.JoinRejected? || a.message.ErrorMessage? || a.message.Shutdown?
  }

  predicate AllQuiet(actions: seq<Action>) { forall i :: 0 <= i < |actions| ==> Quiet(actions[i]) }

  predicate MarksGrow(before: Marks, after: Marks) {
    forall k :: k in before ==> k in after && before[k] <= after[k]
  }

  datatype Move =
    | Idle
    | RelayChat(c: ConnectionId, kind: nat, envelope: Envelope, plaintext: Plaintext)
    | ChangePolicy(open: bool, closed: seq<Action>)
    | Activate(tail: seq<Action>)
    | Enroll(m: Member)
    | Depart(ids: seq<MemberId>, kicked: bool, before: seq<Action>, after: seq<Action>)

  predicate SameRoom(r: Room, r': Room) {
    && r'.hostConnection == r.hostConnection && r'.hostKey == r.hostKey
    && r'.epoch == r.epoch && r'.nextKey == r.nextKey
    && (r'.pending.Some? ==> r.pending.Some?)
    && Roster(r'.table.members) == Roster(r.table.members)
    && r.table.nextId <= r'.table.nextId
    && r.sequence <= r'.sequence
    && MarksGrow(r.replay, r'.replay)
  }

  predicate PayloadOk(kind: nat, p: Plaintext) {
    || (kind == MSG_CHAT && p.isText)
    || (kind == MSG_COLOR && Session.ColorPayload(p).Ok?)
    || (kind == MSG_TIMEOUT_CHANGED && Session.TimeoutPayload(p).Ok?)
  }

  predicate RelayOk(r: Room, r': Room, move: Move)
    requires move.RelayChat? && r.nextKey >= 1
  {
    var e := move.envelope;
    && e.epoch == r.epoch && PayloadOk(move.kind, move.plaintext)
    && (move.kind == MSG_TIMEOUT_CHANGED ==> e.sender == HOST_ID)
    && Fresh(r.replay, e.sender, r.epoch, e.sequence)
    && r'.replay == r.replay[(e.sender, r.epoch) := e.sequence]
    && AuthoredBy(r.table.members, move.c, CurrentKey(r), move.kind, e, move.plaintext)
  }

  // Some member on connection `c` signed the envelope and sealed `p` in it with `key`.
  predicate AuthoredBy(members: seq<Member>, c: ConnectionId, key: EpochKey, kind: nat, e: Envelope, p: Plaintext) {
    exists i :: 0 <= i < |members| && Authored(members[i], c, key, kind, e, p)
  }

  predicate Authored(m: Member, c: ConnectionId, key: EpochKey, kind: nat, e: Envelope, p: Plaintext) {
    && m.id == e.sender && m.connection == c
    && ChatCrypto.Open(key, m.ed25519, Context(e.epoch, e.sender, e.sequence, kind), e.sealed) == Ok(p)
  }

  // The next epoch has begun for the members now in the table, and its announcements are queued.
  predicate NextEpoch(r: Room, r': Room) {
    && r'.hostConnection == r.hostConnection && r'.hostKey == r.hostKey
    && r'.policyOpen == r.policyOpen
    && r'.epoch == r.epoch + 1 && r'.nextKey == r.nextKey + 1
    && r'.replay == Retained(r.replay, r'.epoch)
    && r'.pending.Some? && r'.pending.value.awaiting == IdsOf(r'.table.members)
    && r.table.nextId <= r'.table.nextId
  }

  // The room just after the epoch began, before its announcements were queued.
  function Begun(r: Room, r': Room): Room { r'.(sequence := r.sequence + 1, deferred := r.deferred) }

  predicate Survivors(before: seq<Member>, after: seq<Member>, ids: seq<MemberId>) {
    && (forall k :: 0 <= k < |after| ==> after[k] in before && after[k].id !in ids)
    && IdSet(after) == IdSet(before) - (set id | id in ids)
    && (forall id :: id in ids ==> id in IdSet(before))
  }

  predicate OneLeft(before: seq<Member>, after: seq<Member>, ids: seq<MemberId>) {
    |ids| == 1 && exists i :: 0 < i < |before| && before[i].id == ids[0] && after == Without(before, i)
  }

  // Unless the room closes, the transition is pending as before.
  predicate StillPending(r: Room, r': Room) {
    r'.phase == Destroyed || r'.pending.Some? == r.pending.Some?
  }

  predicate IdleOk(r: Room, r': Room, actions: seq<Action>) {
    StillPending(r, r') && SameRoom(r, r') && r'.deferred == r.deferred && r'.policyOpen == r.policyOpen &&
      AllQuiet(actions)
  }

  predicate RelayMoveOk(r: Room, r': Room, actions: seq<Action>, move: Move)
    requires move.RelayChat? && r.nextKey >= 1
  {
    && StillPending(r, r') && SameRoom(r, r') && r'.deferred == r.deferred && r'.policyOpen == r.policyOpen
    && RelayOk(r, r', move)
    && actions == SendAll(r'.table.members, TheConnection(move.c), Relayed(move.kind, move.envelope))
  }

  predicate PolicyOk(r: Room, r': Room, actions: seq<Action>, open: bool, closed: seq<Action>) {
    && SameRoom(r, r') && r.pending.None? && r'.deferred == r.deferred && AllQuiet(closed)
    && r'.policyOpen == open && r.sequence < r'.sequence
    && actions == closed + SendAll(r'.table.members, TheHost, SignedEvent(r', PolicyChanged(open))) +
                  [Notify(JoinPolicyNotice(open))]
  }

  predicate ActivateOk(r: Room, r': Room, actions: seq<Action>, tail: seq<Action>) {
    && SameRoom(r, r') && r'.policyOpen == r.policyOpen && r.pending.Some? && r'.pending.None?
    && r'.deferred == [] && AllQuiet(tail) && actions == r.deferred + tail
  }

  predicate EnrollOk(r: Room, r': Room, actions: seq<Action>, m: Member) {
    && NextEpoch(r, r') && r.pending.None? && r.policyOpen && m.id == r.table.nextId < r'.table.nextId
    && !m.isHost && m.joinedEpoch == r'.epoch && m.color == DEFAULT_COLOR
    && r'.table.members == r.table.members + [m] && r' == QueueMemberJoined(Begun(r, r'), m)
    && actions == [SendTo(m.connection, JoinAccepted(m.id)), Notify(MemberJoined(m.id, m.nickname))] +
                  WrapAll(r'.table.members, r'.epoch, EpochKey(r.nextKey))
  }

  predicate DepartOk(r: Room, r': Room, actions: seq<Action>, move: Move)
    requires move.Depart?
  {
    && NextEpoch(r, r') && Survivors(r.table.members, r'.table.members, move.ids)
    && (r.pending.None? ==> OneLeft(r.table.members, r'.table.members, move.ids))
    && r' == QueueAllGone(Begun(r, r'), move.ids, move.kicked) && move.ids != [] && HOST_ID !in move.ids
    && AllQuiet(move.before) && AllQuiet(move.after)
    && actions == move.before + WrapAll(r'.table.members, r'.epoch, EpochKey(r.nextKey)) + move.after
  }

  predicate MoveOk(r: Room, r': Room, actions: seq<Action>, move: Move)
    requires r.nextKey >= 1
  {
    match move
    case Idle => IdleOk(r, r', actions)
    case RelayChat(_, _, _, _) => RelayMoveOk(r, r', actions, move)
    case ChangePolicy(open, closed) => PolicyOk(r, r', actions, open, closed)
    case Activate(tail) => ActivateOk(r, r', actions, tail)
    case Enroll(m) => EnrollOk(r, r', actions, m)
    case Depart(_, _, _, _) => DepartOk(r, r', actions, move)
  }

  function Sent(reply: Reply): seq<Action> { if reply.Ok? then reply.value else [] }

  // ---- one lemma per handler -----------------------------------------------------

  lemma SurvivorsOfOne(members: seq<Member>, i: nat)
    requires AllApart(members) && 0 < i < |members|
    ensures Survivors(members, Without(members, i), [members[i].id])
    ensures OneLeft(members, Without(members, i), [members[i].id])
  {
    var after := Without(members, i);
    forall k | 0 <= k < |after| ensures after[k] in members && after[k].id != members[i].id {
      assert after[k] == members[if k < i then k else k + 1];
    }
    forall id | id in IdSet(members) && id != members[i].id ensures id in IdSet(after) {
      var k :| 0 <= k < |members| && members[k].id == id;
      assert after[if k < i then k else k - 1].id == id;
    }
  }

  // Dropping members, beginning the next epoch and queueing the announcements is a Depart.
  lemma DepartMove(r: Room, d: Room, ids: seq<MemberId>, kicked: bool, before: seq<Action>, after: seq<Action>)
    requires r.nextKey >= 1 && ids != [] && HOST_ID !in ids && AllQuiet(before) && AllQuiet(after)
    requires d == r.(table := d.table, entries := d.entries, limits := d.limits, pending := d.pending)
    requires d.table.nextId == r.table.nextId
    requires Survivors(r.table.members, d.table.members, ids)
    requires r.pending.None? ==> OneLeft(r.table.members, d.table.members, ids)
    ensures var (b, wraps) := BeginEpochTransition(d);
      MoveOk(r, QueueAllGone(b, ids, kicked), before + wraps + after, Depart(ids, kicked, before, after))
  {
    hide Survivors, OneLeft, AllQuiet, QueueAllGone;
    var b := BeginEpochTransition(d).0;
    QueueAllGoneFrame(b, ids, kicked);
    assert Begun(r, QueueAllGone(b, ids, kicked)) == b;
  }

  // A removal that finds its member is the move Depart.
  lemma RemoveMoves(r: Room, id: MemberId, kicked: bool, before: seq<Action>, after: seq<Action>)
    requires RoomInv(r) && r.phase != Destroyed && id != HOST_ID && PositionOfId(r.table.members, id).Some?
    requires AllQuiet(before) && AllQuiet(after)
    ensures RemoveMember(r, id, kicked).Some?
    ensures var (r1, wraps, gone) := RemoveMember(r, id, kicked).value;
      gone == Some(r.table.members[PositionOfId(r.table.members, id).value]) &&
      MoveOk(r, r1, before + wraps + after, Depart([id], kicked, before, after))
  {
    var i := PositionOfId(r.table.members, id).value;
    MemberZeroIsHost(r.table, r.hostConnection, i);
    SurvivorsOfOne(r.table.members, i);
    hide RoomInv, TableInv, LinkInv, QueueInv, LimitsInv, Survivors, OneLeft, MoveOk, QueueMemberGone,
      BeginEpochTransition;
    DepartMove(r, DropMember(r, i), [id], kicked, before, after);
    var b := BeginEpochTransition(DropMember(r, i)).0;
    assert QueueAllGone(b, [], kicked) == b;
    assert QueueAllGone(b, [id], kicked) == QueueMemberGone(b, id, kicked);
  }

  lemma ConnectionLostMoves(r: Room, c: ConnectionId) returns (move: Move)
    requires RoomInv(r) && r.phase != Destroyed
    ensures var (r1, reply) := OnConnectionLost(r, c); MoveOk(r, r1, Sent(reply), move)
    ensures !move.ChangePolicy?
  {
    hide TableInv, LinkInv, QueueInv, LimitsInv, MarksInv, EpochInv;
    RejectionsAreQuiet(r.timeouts, c);
    if c != r.hostConnection && MemberOf(r.entries, c).Some? {
      move := MemberConnectionLostMoves(r, c);
    } else {
      MemberOfConnection(r, c);
      hide RosterInv;
      move := Idle;
    }
  }

  lemma MemberConnectionLostMoves(r: Room, c: ConnectionId) returns (move: Move)
    requires RoomInv(r) && r.phase != Destroyed && c != r.hostConnection && MemberOf(r.entries, c).Some?
    ensures var (r1, reply) := OnConnectionLost(r, c); MoveOk(r, r1, Sent(reply), move)
    ensures !move.ChangePolicy?
  {
    hide TableInv, LinkInv, QueueInv, LimitsInv, MarksInv, EpochInv, MoveOk, RemoveMember, HasMember;
    var r0 := r.(timeouts := TimeoutsNotOf(r.timeouts, c));
    var rejected := RejectTimeoutsOf(r.timeouts, c);
    WithdrawTimeoutsKeeps(r, c);
    RejectionsAreQuiet(r.timeouts, c);
    MemberOfConnection(r0, c);
    var id := MemberOf(r0.entries, c).value;
    LostConnectionIsGone(r0, c, id, false);
    FoundById(r0.table.members, c, id);
    var after := [Notify(MemberLeft(id, r0.table.members[PositionOfId(r0.table.members, id).value].nickname))];
    RemoveMoves(r0, id, false, rejected, after);
    var (r1, wraps, gone) := RemoveMember(r0, id, false).value;
    move := Depart([id], false, rejected, after);
    assert r1.(entries := r1.entries - {c}) == r1;
    assert OnConnectionLost(r, c) == (r1, Ok(rejected + wraps + after));
    MoveFromEqualChannels(r0, r, r1, rejected + wraps + after, move);
  }

  lemma FoundAtIndex(t: Table, host: ConnectionId, i: nat)
    requires TableInv(t, host) && i < |t.members|
    ensures PositionOfId(t.members, t.members[i].id) == Some(i)
    ensures PositionOfConnection(t.members, t.members[i].connection) == Some(i)
  {
    SameIdSameMember(t.members, PositionOfId(t.members, t.members[i].id).value, i);
    SameIdSameMember(t.members, PositionOfConnection(t.members, t.members[i].connection).value, i);
  }

  lemma FoundById(members: seq<Member>, c: ConnectionId, id: MemberId)
    requires HasMember(members, c, id)
    ensures PositionOfId(members, id).Some?
  {
  }

  // A move reads only the fields the channels depend on.
  lemma MoveFromEqualChannels(r0: Room, r: Room, r1: Room, actions: seq<Action>, move: Move)
    requires r0.nextKey >= 1 && move.Depart? && MoveOk(r0, r1, actions, move)
    requires r == r0.(timeouts := r.timeouts, limits := r.limits, entries := r.entries)
    ensures MoveOk(r, r1, actions, move)
  {
    assert Begun(r, r1) == Begun(r0, r1);
  }

  lemma {:induction false} RejectionsAreQuiet(ts: seq<TimeoutRequest>, c: ConnectionId)
    ensures AllQuiet(RejectTimeoutsOf(ts, c))
    decreases |ts|
  {
    if ts != [] { RejectionsAreQuiet(ts[..|ts| - 1], c); }
  }

  lemma {:induction false} WithdrawalsAreQuiet(requests: seq<JoinRequest>)
    ensures AllQuiet(WithdrawAll(requests))
    decreases |requests|
  {
    if requests != [] { WithdrawalsAreQuiet(requests[..|requests| - 1]); }
  }

  lemma {:induction false} EvictQuietly(r: Room, ids: seq<MemberId>)
    ensures AllQuiet(EvictAll(r, ids).1)
    ensures forall id :: id in EvictAll(r, ids).2 ==> id in ids
    ensures EvictAll(r, ids).0.table.nextId == r.table.nextId
    decreases |ids|
  {
    if ids != [] { EvictQuietly(r, ids[..|ids| - 1]); }
  }

  lemma {:induction false} EvictMoves(r: Room, ids: seq<MemberId>)
    requires RosterInv(r) && HOST_ID !in ids
    ensures Survivors(r.table.members, EvictAll(r, ids).0.table.members, EvictAll(r, ids).2)
    decreases |ids|
  {
    hide AllQuiet;
    if ids != [] {
      var before := ids[..|ids| - 1];
      assert forall id :: id in before ==> id in ids;
      EvictMoves(r, before);
      EvictKeeps(r, before);
      EvictOneMoves(r.table.members, EvictAll(r, before).0, EvictAll(r, before).2, ids[|ids| - 1]);
      hide RosterInv, Survivors;
    }
  }

  lemma EvictOneMoves(members: seq<Member>, r: Room, removed: seq<MemberId>, id: MemberId)
    requires RosterInv(r) && id != HOST_ID && Survivors(members, r.table.members, removed)
    ensures var p := PositionOfId(r.table.members, id);
      p.Some? ==> Survivors(members, Without(r.table.members, p.value), removed + [id])
  {
    hide LinkInv, QueueInv, LimitsInv, Survivors;
    var p := PositionOfId(r.table.members, id);
    if p.Some? {
      MemberZeroIsHost(r.table, r.hostConnection, p.value);
      SurvivorsOfOne(r.table.members, p.value);
      SurvivorsChain(members, r.table.members, Without(r.table.members, p.value), removed, id);
    }
  }

  lemma {:induction false} EvictRemoves(r: Room, ids: seq<MemberId>)
    requires ids != [] && ids[0] in IdSet(r.table.members)
    ensures EvictAll(r, ids).2 != []
    decreases |ids|
  {
    if |ids| > 1 { EvictRemoves(r, ids[..|ids| - 1]); }
    else { assert EvictAll(r, ids[..0]).2 == []; }
  }

  lemma SurvivorsChain(a: seq<Member>, b: seq<Member>, c: seq<Member>, ids: seq<MemberId>, id: MemberId)
    requires Survivors(a, b, ids) && Survivors(b, c, [id])
    ensures Survivors(a, c, ids + [id])
  {
    assert forall k :: 0 <= k < |c| ==> c[k] in b && c[k].id != id && c[k].id !in ids by {
      forall k | 0 <= k < |c| ensures c[k].id !in ids && c[k].id != id {
        var j :| 0 <= j < |b| && b[j] == c[k];
        assert c[k].id !in [id];
        assert id in [id];
      }
    }
    assert (set x | x in ids + [id]) == (set x | x in ids) + {id};
    assert (set x | x in [id]) == {id};
  }

  lemma EpochTimeoutMoves(r: Room) returns (move: Move)
    requires RoomInv(r) && r.phase != Destroyed
    ensures var (r1, reply) := OnEpochTimeout(r); MoveOk(r, r1, Sent(reply), move)
    ensures !move.ChangePolicy?
  {
    hide TableInv, LinkInv, QueueInv, LimitsInv, MarksInv, RelayMoveOk, PolicyOk, ActivateOk, EnrollOk, DepartOk;
    move := Idle;
    if r.pending.Some? && Elapsed(r.now, r.pending.value.startedAt) >= r.acknowledgeWithin
      && HOST_ID !in r.pending.value.awaiting {
      var late := r.pending.value.awaiting;
      assert late[0] in late && late[0] in IdSet(r.table.members);
      var r0 := r.(pending := None);
      EvictKeeps(r0, late);
      EvictMoves(r0, late);
      EvictQuietly(r0, late);
      EvictRemoves(r0, late);
      hide RosterInv, PendingInv, RoomInv, Survivors, MoveOk, EvictAll, BeginEpochTransition, AllQuiet;
      var (r1, actions, removed) := EvictAll(r0, late);
      assert AllQuiet([]) by { NothingIsQuiet(); }
      DepartMove(r, r1, removed, false, actions, []);
      move := Depart(removed, false, actions, []);
      var (b, wraps) := BeginEpochTransition(r1);
      assert actions + wraps == actions + wraps + [];
    }
  }

  lemma NothingIsQuiet()
    ensures AllQuiet([])
  {
  }

  lemma AckMoves(r: Room, c: ConnectionId, epoch: nat) returns (move: Move)
    requires RoomInv(r) && r.phase != Destroyed
    ensures var (r1, reply) := OnEpochAck(r, c, epoch); MoveOk(r, r1, Sent(reply), move)
    ensures !move.ChangePolicy?
  {
    hide RoomInv, RosterInv;
    var (r1, reply) := OnEpochAck(r, c, epoch);
    if r.pending.Some? && r1.pending.None? {
      move := Activate(if r.roomTimeout.Some? then [Notify(TimeoutRebroadcast(r.roomTimeout.value))] else []);
    } else {
      move := Idle;
    }
  }

  lemma EnrollMove(r: Room, admitted: Room, m: Member)
    requires r.nextKey >= 1 && r.pending.None? && r.policyOpen
    requires admitted == r.(queue := admitted.queue, table := admitted.table, entries := admitted.entries)
    requires admitted.table.members == r.table.members + [m]
    requires m.id == r.table.nextId < admitted.table.nextId
    requires !m.isHost && m.joinedEpoch == r.epoch + 1 && m.color == DEFAULT_COLOR
    ensures var (b, wraps) := BeginEpochTransition(admitted);
      MoveOk(r, QueueMemberJoined(b, m),
        [SendTo(m.connection, JoinAccepted(m.id)), Notify(MemberJoined(m.id, m.nickname))] + wraps, Enroll(m))
  {
    hide QueueMemberJoined;
    var b := BeginEpochTransition(admitted).0;
    QueueJoinedFrame(b, m);
    assert Begun(r, QueueMemberJoined(b, m)) == b;
  }

  lemma AcceptMoves(r: Room, id: RequestId) returns (move: Move)
    requires RoomInv(r) && r.phase != Destroyed && r.pending.None?
    ensures var (r1, reply) := OnAccept(r, id); MoveOk(r, r1, Sent(reply), move)
    ensures !move.ChangePolicy?
  {
    hide RoomInv, MoveOk, Admit;
    RoomKeyed(r);
    var p := PositionOfRequest(r.queue.requests, id);
    if PositionOfTimeout(r.timeouts, id).None? && p.Some? {
      QueuedMeansOpen(r);
      move := AdmitMoves(r, p.value);
    } else {
      move := Idle;
      NotQueuedIsIdle(r, id);
    }
  }

  lemma QueuedMeansOpen(r: Room)
    requires RoomInv(r)
    ensures r.queue.requests != [] ==> r.policyOpen
  {
    hide TableInv, LinkInv, LimitsInv, MarksInv, EpochInv;
  }

  lemma NotQueuedIsIdle(r: Room, id: RequestId)
    requires r.nextKey >= 1
    requires PositionOfTimeout(r.timeouts, id).Some? || PositionOfRequest(r.queue.requests, id).None?
    ensures var (r1, reply) := OnAccept(r, id); MoveOk(r, r1, Sent(reply), Idle)
  {
    hide Admit;
  }

  lemma AdmitMoves(r: Room, i: nat) returns (move: Move)
    requires r.nextKey >= 1 && r.pending.None? && r.policyOpen && i < |r.queue.requests|
    ensures var (r1, reply) := Admit(r.(queue := TakeAt(r.queue, i)), r.queue.requests[i]);
      MoveOk(r, r1, Sent(reply), move)
    ensures !move.ChangePolicy?
  {
    hide MoveOk, QueueMemberJoined, BeginEpochTransition, TakeAt;
    var q := r.queue.requests[i];
    var added := AddMember(r.table, q.connection, q.application, r.epoch + 1);
    if added.Ok? {
      var (table, m) := added.value;
      move := Enroll(m);
      EnrollMove(r, r.(queue := TakeAt(r.queue, i), table := table,
        entries := WithRole(Registered(r.entries, q.connection), q.connection, ActiveMember(m.id))), m);
    } else {
      move := Idle;
      var (r1, reply) := Admit(r.(queue := TakeAt(r.queue, i)), q);
      hide Admit, AddMember;
      assert r1 == r.(queue := r1.queue, entries := r1.entries) && AllQuiet(Sent(reply));
      IdleFrame(r, r1, Sent(reply));
    }
  }

  lemma IdleFrame(r: Room, r': Room, actions: seq<Action>)
    requires r.nextKey >= 1 && AllQuiet(actions) && r' == r.(queue := r'.queue, entries := r'.entries)
    ensures MoveOk(r, r', actions, Idle)
  {
  }

  lemma QueueJoinedFrame(r: Room, m: Member)
    ensures var q := QueueMemberJoined(r, m); q == r.(sequence := q.sequence, deferred := q.deferred)
  {
  }

  lemma PolicyMoves(r: Room, open: bool) returns (move: Move)
    requires r.nextKey >= 1 && r.pending.None?
    ensures var (r1, reply) := SetPolicy(r, open); MoveOk(r, r1, Sent(reply), move)
    ensures move.ChangePolicy? && move.open == open
  {
    WithdrawalsAreQuiet(r.queue.requests);
    move := ChangePolicy(open, if open then [] else CloseAdmissions(r).1);
  }

  lemma NewIdMoves(r: Room)
    requires r.nextKey >= 1
    ensures var (r1, reply) := OnNewId(r); MoveOk(r, r1, Sent(reply), Idle)
  {
    WithdrawalsAreQuiet(r.queue.requests);
  }

  lemma LeaveMoves(r: Room, c: ConnectionId) returns (move: Move)
    requires RoomInv(r) && r.phase != Destroyed
    ensures var (r1, reply) := OnLeave(r, c); MoveOk(r, r1, Sent(reply), move)
    ensures !move.ChangePolicy?
  {
    move := Idle;
    hide MoveOk, TableInv, LinkInv, QueueInv, LimitsInv, MarksInv, EpochInv, HasMember;
    IdleMove(r, []);
    var member := MemberOf(r.entries, c);
    if c != r.hostConnection && member.Some? {
      MemberOfConnection(r, c);
      FoundById(r.table.members, c, member.value);
      hide RoomInv, RemoveMember;
      var id := member.value;
      var p := PositionOfId(r.table.members, id);
      var after := [SendTo(c, Shutdown), CloseConnection(c), Notify(MemberLeft(id, r.table.members[p.value].nickname))];
      RemoveMoves(r, id, false, [], after);
      move := Depart([id], false, [], after);
      var (r1, wraps, gone) := RemoveMember(r, id, false).value;
      assert OnLeave(r, c) == (r1, Ok(wraps + after));
      assert [] + wraps + after == wraps + after;
    }
  }

  lemma KickMoves(r: Room, target: MemberRef) returns (move: Move)
    requires RoomInv(r) && r.phase != Destroyed
    ensures var (r1, reply) := OnKick(r, target); MoveOk(r, r1, Sent(reply), move)
    ensures !move.ChangePolicy?
  {
    move := Idle;
    hide MoveOk, TableInv, LinkInv, QueueInv, LimitsInv, MarksInv, EpochInv;
    IdleMove(r, []);
    var found := Resolve(r, target);
    if found.Ok? && found.value < |r.table.members| && !r.table.members[found.value].isHost {
      var m := r.table.members[found.value];
      MemberZeroIsHost(r.table, r.hostConnection, found.value);
      FoundAtIndex(r.table, r.hostConnection, found.value);
      hide RoomInv, RemoveMember;
      var after := [CloseConnection(m.connection), Notify(MemberKicked(m.id, m.nickname))];
      RemoveMoves(r, m.id, true, [], after);
      move := Depart([m.id], true, [], after);
      var (r1, wraps, gone) := RemoveMember(r, m.id, true).value;
      assert OnKick(r, target) == (r1, Ok(wraps + after));
      assert [] + wraps + after == wraps + after;
    }
  }

  lemma DepartedMoves(r: Room, id: MemberId) returns (move: Move)
    requires RoomInv(r) && r.phase != Destroyed
    ensures var (r1, reply) := OnMemberDeparted(r, id); MoveOk(r, r1, Sent(reply), move)
    ensures !move.ChangePolicy?
  {
    move := Idle;
    hide MoveOk, TableInv, LinkInv, QueueInv, LimitsInv, MarksInv, EpochInv;
    IdleMove(r, []);
    var p := PositionOfId(r.table.members, id);
    if id != HOST_ID && p.Some? {
      var after := [Notify(MemberLeft(id, r.table.members[p.value].nickname))];
      RemoveMoves(r, id, false, [], after);
      hide RoomInv, RemoveMember;
      move := Depart([id], false, [], after);
      var (r1, wraps, gone) := RemoveMember(r, id, false).value;
      assert OnMemberDeparted(r, id) == (r1, Ok(wraps + after));
      assert [] + wraps + after == wraps + after;
    }
  }

  lemma RecoloredFrame(r: Room, id: MemberId, color: Color)
    ensures var r1 := Recolored(r, id, color);
      r1 == r.(table := r1.table) && Roster(r1.table.members) == Roster(r.table.members)
      && r1.table.nextId == r.table.nextId
  {
    hide Roster;
    var p := PositionOfId(r.table.members, id);
    if p.Some? { RosterIgnoresColor(r.table.members, p.value, color); }
  }

  lemma RosterIgnoresColor(members: seq<Member>, i: nat, color: Color)
    requires i < |members|
    ensures Roster(members[i := members[i].(color := color)]) == Roster(members)
  {
    var after := members[i := members[i].(color := color)];
    assert forall k :: 0 <= k < |members| ==> Plain(after[k]) == Plain(members[k]);
  }

  // Whether the room's chat key is the key of the current epoch.
  lemma {:induction false} ChatKeyIsCurrent(r: Room)
    requires RoomInv(r) && r.phase != Destroyed
    ensures ChatKey(r) == Some((r.epoch, CurrentKey(r)))
  {
  }

  lemma OpenAndRelayMoves(r: Room, c: ConnectionId, kind: nat, e: Envelope) returns (move: Move)
    requires RoomInv(r) && r.phase != Destroyed && MemberOf(r.entries, c) == Some(e.sender)
    requires RateLimited(kind) || kind == MSG_TIMEOUT_CHANGED
    ensures var (r1, reply) := OpenAndRelay(r, c, kind, e); MoveOk(r, r1, Sent(reply), move)
    ensures !move.ChangePolicy?
    ensures move.RelayChat? ==> move.c == c && move.kind == kind && move.envelope == e
  {
    hide RoomInv, ChatPlaintext, AuthoredBy, SendAll, Roster, PolicyOk, ActivateOk, DepartOk, EnrollOk;
    RoomKeyed(r);
    var plain := ChatPlaintext(r, kind, e);
    if e.epoch == r.epoch && Fresh(r.replay, e.sender, r.epoch, e.sequence) && plain.Ok? {
      SenderOf(r, c, kind, e, plain.value);
      var accepted := r.(replay := Accepted(r.replay, e.sender, r.epoch, e.sequence));
      RelayPlaintextMoves(accepted, c, kind, e, plain.value);
      var (r1, reply) := RelayPlaintext(accepted, c, kind, e, plain.value);
      hide RelayPlaintext;
      move := if r1.queue == r.queue && reply.Ok? then RelayChat(c, kind, e, plain.value) else Idle;
    } else {
      move := Idle;
    }
  }

  // The member whose key opened the envelope is the one on the connection it came from.
  lemma SenderOf(r: Room, c: ConnectionId, kind: nat, e: Envelope, plain: Plaintext)
    requires RoomInv(r) && r.phase != Destroyed && MemberOf(r.entries, c) == Some(e.sender)
    requires e.epoch == r.epoch && ChatPlaintext(r, kind, e) == Ok(plain)
    ensures AuthoredBy(r.table.members, c, CurrentKey(r), kind, e, plain)
  {
    hide TableInv, LinkInv, QueueInv, LimitsInv, MarksInv, EpochInv, HasMember;
    ChatKeyIsCurrent(r);
    MemberOfConnection(r, c);
    var i := PositionOfConnection(r.table.members, c).value;
    FoundAtIndex(r.table, r.hostConnection, i);
    assert Authored(r.table.members[i], c, CurrentKey(r), kind, e, plain);
  }

  // What the payload decides: a relay, a new timeout request, or an error.
  lemma RelayPlaintextMoves(r: Room, c: ConnectionId, kind: nat, e: Envelope, p: Plaintext)
    ensures var (r1, reply) := RelayPlaintext(r, c, kind, e, p);
      && r1 == r.(table := r1.table, queue := r1.queue, timeouts := r1.timeouts, roomTimeout := r1.roomTimeout)
      && Roster(r1.table.members) == Roster(r.table.members) && r1.table.nextId == r.table.nextId
      && (reply.Ok? && r1.queue == r.queue ==>
          reply.value == SendAll(r1.table.members, TheConnection(c), Relayed(kind, e)) &&
          (kind == MSG_COLOR || kind == MSG_TIMEOUT_CHANGED || p.isText) &&
          (kind == MSG_COLOR ==> Session.ColorPayload(p).Ok?) &&
          (kind == MSG_TIMEOUT_CHANGED ==> e.sender == HOST_ID && Session.TimeoutPayload(p).Ok?) &&
          kind != MSG_TIMEOUT_REQUEST)
      && (r1.queue != r.queue ==> AllQuiet(Sent(reply)))
  {
    if kind == MSG_COLOR && |p.data| == 1 && ColorFromIndex(p.data[0]).Some? {
      RecoloredFrame(r, e.sender, ColorFromIndex(p.data[0]).value);
    }
  }

  lemma ChatMoves(r: Room, c: ConnectionId, kind: nat, e: Envelope) returns (move: Move)
    requires RoomInv(r) && r.phase != Destroyed
    ensures var (r1, reply) := OnChatReceived(r, c, kind, e); MoveOk(r, r1, Sent(reply), move)
    ensures !move.ChangePolicy?
    ensures move.RelayChat? ==> move.c == c && move.kind == kind && move.envelope == e
  {
    hide TableInv, LinkInv, QueueInv, LimitsInv, MarksInv, EpochInv, RelayMoveOk, PolicyOk, ActivateOk, EnrollOk,
      DepartOk;
    move := Idle;
    var member := MemberOf(r.entries, c);
    if (RateLimited(kind) || kind == MSG_TIMEOUT_CHANGED) && member == Some(e.sender)
      && PositionOfId(r.table.members, e.sender).Some? {
      var id := e.sender;
      if !RateLimited(kind) { move := OpenAndRelayMoves(r, c, kind, e); }
      else {
        var (bucket, allowed) := Allow(BucketOf(r, id), r.now);
        var r1 := r.(limits := r.limits[id := bucket]);
        LimitUpdateKeeps(r, id, bucket);
        if allowed {
          move := OpenAndRelayMoves(r1, c, kind, e);
          hide RoomInv;
          var (r2, reply) := OpenAndRelay(r1, c, kind, e);
          MoveIgnoresLimits(r1, r, r2, Sent(reply), move);
        } else {
          move := OverLimitMoves(r1, c, id, bucket.violations >= RATE_LIMIT_TERMINATION);
          hide RoomInv;
          var (r2, reply) := OverLimit(r1, c, id, bucket.violations >= RATE_LIMIT_TERMINATION);
          MoveIgnoresLimits(r1, r, r2, Sent(reply), move);
        }
      }
    }
  }

  lemma LimitUpdateKeeps(r: Room, id: MemberId, bucket: Bucket)
    requires RoomInv(r) && PositionOfId(r.table.members, id).Some?
    ensures RoomInv(r.(limits := r.limits[id := bucket]))
  {
    hide TableInv, LinkInv, QueueInv, MarksInv, PendingInv;
    assert r.table.members[PositionOfId(r.table.members, id).value].id == id;
  }

  lemma IdleMove(r: Room, actions: seq<Action>)
    requires r.nextKey >= 1 && AllQuiet(actions)
    ensures MoveOk(r, r, actions, Idle)
  {
  }

  // A move reads neither the rate limiters nor the clock.
  lemma MoveIgnoresLimits(r0: Room, r: Room, r1: Room, actions: seq<Action>, move: Move)
    requires r0.nextKey >= 1 && MoveOk(r0, r1, actions, move) && r == r0.(limits := r.limits, now := r.now)
    ensures MoveOk(r, r1, actions, move)
  {
    assert Begun(r, r1) == Begun(r0, r1);
  }

  lemma OverLimitMoves(r: Room, c: ConnectionId, id: MemberId, abusive: bool) returns (move: Move)
    requires RoomInv(r) && r.phase != Destroyed && PositionOfId(r.table.members, id).Some?
    ensures var (r1, reply) := OverLimit(r, c, id, abusive); MoveOk(r, r1, Sent(reply), move)
    ensures !move.ChangePolicy?
    ensures !move.RelayChat?
  {
    move := Idle;
    hide MoveOk, TableInv, LinkInv, QueueInv, LimitsInv, MarksInv, EpochInv;
    IdleMove(r, []);
    IdleMove(r, [SendTo(c, ErrorMessage), Notify(ErrorNotice)]);
    if abusive && id != HOST_ID {
      var p := PositionOfId(r.table.members, id).value;
      var before := [SendTo(c, ErrorMessage), Notify(ErrorNotice)];
      var after := [CloseConnection(c), Notify(MemberKicked(id, r.table.members[p].nickname))];
      RemoveMoves(r, id, true, before, after);
      hide RoomInv, RemoveMember;
      move := Depart([id], true, before, after);
      var (r1, wraps, gone) := RemoveMember(r, id, true).value;
      assert OverLimit(r, c, id, abusive) == (r1, Ok(before + wraps + after));
    }
  }

  // ---- every event -----------------------------------------------------------------

  lemma HostCommandMoves(r: Room, command: HostCommand) returns (move: Move)
    requires RoomInv(r) && r.phase != Destroyed && r.pending.None?
    ensures var (r1, reply) := OnHostCommandAt(r, command); MoveOk(r, r1, Sent(reply), move)
    ensures move.ChangePolicy? ==> command == if move.open then ReqOn else ReqOff
  {
    hide RoomInv, MoveOk, OnKick, OnNewId, SetPolicy, OnAccept, OnReject;
    RoomKeyed(r);
    match command
    case Kick(target) => move := KickMoves(r, target);
    case NewId => NewIdMoves(r); move := Idle;
    case ReqOn => move := PolicyMoves(r, true);
    case ReqOff => move := PolicyMoves(r, false);
    case Requests => move := Idle; IdleMove(r, [Notify(RequestsSnapshot(r.queue.requests, r.timeouts))]);
    case Accept(id) => move := AcceptMoves(r, id);
    case Reject(id) => move := Idle; RejectMoves(r, id);
  }

  lemma RejectMoves(r: Room, id: RequestId)
    requires r.nextKey >= 1
    ensures var (r1, reply) := OnReject(r, id); MoveOk(r, r1, Sent(reply), Idle)
  {
  }

  lemma MemberCommandMoves(r: Room, c: ConnectionId, command: MemberCommand) returns (move: Move)
    requires RoomInv(r) && r.phase != Destroyed
    ensures var (r1, reply) := OnMemberCommandAt(r, c, command); MoveOk(r, r1, Sent(reply), move)
    ensures !move.ChangePolicy?
  {
    hide RosterInv, MarksInv, EpochInv, RelayMoveOk, PolicyOk, ActivateOk, EnrollOk, DepartOk;
    move := Idle;
    match command
    case Leave => move := LeaveMoves(r, c);
    case SetColor(color) =>
      RecoloredFrame(r, HOST_ID, color);
      if MemberOf(r.entries, c).Some? { RecoloredFrame(r, MemberOf(r.entries, c).value, color); }
    case List =>
    case Whois(_) =>
  }

  lemma SettledMoves(r: Room, event: Event) returns (move: Move)
    requires RoomInv(r) && r.phase != Destroyed && r.phase != EpochTransition
    ensures var (r1, reply) := HandleSettled(r, event); MoveOk(r, r1, Sent(reply), move)
    ensures move.ChangePolicy? ==> event == OnHostCommand(if move.open then ReqOn else ReqOff)
    ensures event.ChatReceived? && move.RelayChat? ==>
      move.c == event.connection && move.kind == event.kind && move.envelope == event.envelope
  {
    hide RosterInv, RelayMoveOk, PolicyOk, ActivateOk, EnrollOk, DepartOk, MarksInv, OnChatReceived, OnMemberCommandAt,
      OnHostCommandAt, OnConnectionLost, OnMemberDeparted, OnAccept, OnReject;
    assert r.pending.None?;
    move := Idle;
    match event
    case ClientConnected(c) =>
    case PasswordVerified(c) =>
    case EpochAck(c, epoch) =>
    case JoinRequested(c, a) =>
    case OnHostCommand(command) => move := HostCommandMoves(r, command);
    case OnMemberCommand(c, command) => move := MemberCommandMoves(r, c, command);
    case HostAccepted(id) => move := AcceptMoves(r, id);
    case HostRejected(id) => RejectMoves(r, id);
    case ConnectionLost(c) => move := ConnectionLostMoves(r, c);
    case TimeoutExpired(c, _) => move := ConnectionLostMoves(r, c);
    case EpochMaintenance =>
    case MemberDeparted(id) => move := DepartedMoves(r, id);
    case ChatReceived(c, kind, e) => move := ChatMoves(r, c, kind, e);
    case TorStopped =>
    case CloseRequested =>
  }

  lemma TransitionMoves(r: Room, event: Event) returns (move: Move)
    requires RoomInv(r) && r.phase == EpochTransition
    ensures var (r1, reply) := HandleInTransition(r, event); MoveOk(r, r1, Sent(reply), move)
    ensures !move.ChangePolicy?
    ensures event.ChatReceived? && move.RelayChat? ==>
      move.c == event.connection && move.kind == event.kind && move.envelope == event.envelope
  {
    hide RosterInv, RelayMoveOk, PolicyOk, ActivateOk, EnrollOk, DepartOk;
    move := Idle;
    match event
    case EpochAck(c, epoch) => move := AckMoves(r, c, epoch);
    case ConnectionLost(c) => move := ConnectionLostMoves(r, c);
    case TimeoutExpired(c, acknowledgement) =>
      if acknowledgement { move := EpochTimeoutMoves(r); } else { move := ConnectionLostMoves(r, c); }
    case EpochMaintenance => move := EpochTimeoutMoves(r);
    case ChatReceived(c, kind, e) =>
      if HasAckedPending(r, c) { move := ChatMoves(r, c, kind, e); }
    case _ =>
  }

  lemma {:induction false} HandleMoves(r: Room, event: Event, now: Time) returns (move: Move)
    requires RoomInv(r)
    ensures var (r1, reply) := Handle(r, event, now); MoveOk(r, r1, Sent(reply), move)
    ensures event.ChatReceived? && move.RelayChat? ==>
      move.c == event.connection && move.kind == event.kind && move.envelope == event.envelope
    ensures move.ChangePolicy? ==> event == OnHostCommand(if move.open then ReqOn else ReqOff)
    ensures move.ChangePolicy? ==> r.phase != Destroyed && r.phase != EpochTransition
    ensures r.phase == Destroyed ==> move.Idle? && Handle(r, event, now).0 == r.(now := now)
  {
    var at := r.(now := now);
    assert RoomInv(at);
    hide RosterInv;
    if at.phase == Destroyed { move := Idle; IdleMove(at, []); }
    else if at.phase == EpochTransition { move := TransitionMoves(at, event); }
    else { move := SettledMoves(at, event); }
    hide RoomInv, MoveOk, HandleInTransition, HandleSettled;
    var (r1, reply) := Handle(r, event, now);
    MoveIgnoresLimits(at, r, r1, Sent(reply), move);
  }
}
