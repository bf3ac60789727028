// What every handler of the room actor keeps, whatever event arrives.
module ActorInvariants {
  import opened Wrappers
  import opened RoomTypes
  import opened Members
  import opened Registry
  import opened Requests
  import opened Replay
  import opened RateLimit
  import opened Actor

  // ---- the invariant -----------------------------------------------------------

  predicate HasMember(members: seq<Member>, c: ConnectionId, id: MemberId) {
    exists i :: 0 <= i < |members| && members[i].connection == c && members[i].id == id
  }

  predicate HasRequest(requests: seq<JoinRequest>, c: ConnectionId, id: RequestId) {
    exists i :: 0 <= i < |requests| && requests[i].connection == c && requests[i].id == id
  }

  // Member roles and table entries are in bijection, pending roles and queued requests are
  // in bijection, and nobody but the host got past admission without proving the password.
  predicate LinkInv(members: seq<Member>, entries: Entries, requests: seq<JoinRequest>) {
    && (forall i :: 0 <= i < |members| ==>
        members[i].connection in entries && entries[members[i].connection].role == ActiveMember(members[i].id))
    && (forall i :: 0 <= i < |requests| ==>
        requests[i].connection in entries &&
        entries[requests[i].connection].role == AwaitingDecision(requests[i].id))
    && (forall c :: c in entries && entries[c].role.ActiveMember? ==>
        HasMember(members, c, entries[c].role.id))
    && (forall c :: c in entries && entries[c].role.AwaitingDecision? ==>
        HasRequest(requests, c, entries[c].role.request))
    && (forall c :: c in entries && !entries[c].role.InAdmission? && entries[c].role != ActiveMember(HOST_ID) ==>
        entries[c].passwordVerified)
  }

  // One id namespace: join and timeout requests have distinct ids below the allocator.
  predicate QueueInv(q: Queue, timeouts: seq<TimeoutRequest>, policyOpen: bool) {
    && |q.requests| <= q.limit && |timeouts| <= q.limit
    && (forall i, j :: 0 <= i < j < |q.requests| ==> q.requests[i].id < q.requests[j].id)
    && (forall i, j :: 0 <= i < j < |timeouts| ==> timeouts[i].id < timeouts[j].id)
    && (forall i, j :: 0 <= i < |q.requests| && 0 <= j < |timeouts| ==> q.requests[i].id != timeouts[j].id)
    && (forall i :: 0 <= i < |q.requests| ==> q.requests[i].id < q.nextId)
    && (forall j :: 0 <= j < |timeouts| ==> timeouts[j].id < q.nextId)
    && (forall i :: 0 <= i < |q.requests| ==> q.requests[i].application.nickname.valid)
    && (!policyOpen ==> q.requests == [])
  }

  predicate LimitsInv(limits: map<MemberId, Bucket>, members: seq<Member>) {
    forall id :: id in limits ==> id in IdSet(members)
  }

  predicate PendingInv(p: PendingEpoch, epoch: nat, key: EpochKey, members: seq<Member>) {
    && p.epoch == epoch && p.key == key
    && 0 < |p.awaiting| <= |members|
    && forall id :: id in p.awaiting ==> id in IdSet(members)
  }

  // The key of the current epoch: the generator is asked once per epoch.
  function CurrentKey(r: Room): EpochKey
    requires r.nextKey >= 1
  {
    EpochKey(r.nextKey - 1)
  }

  predicate EpochInv(r: Room)
    requires r.nextKey >= 1
  {
    && (r.phase == EpochTransition <==> r.pending.Some?)
    && (r.pending.Some? ==> PendingInv(r.pending.value, r.epoch, CurrentKey(r), r.table.members))
    && (r.pending.None? ==>
        r.epochKey == Some(CurrentKey(r)) && r.deferred == [] &&
        r.phase == if r.policyOpen then Open else Locked)
  }

  predicate MarksInv(marks: Marks, epoch: nat) { forall k :: k in marks ==> k.1 == epoch }

  // The parts a membership change keeps before the next epoch begins.
  predicate RosterInv(r: Room) {
    && r.table.limit <= MAX_MEMBERS
    && TableInv(r.table, r.hostConnection)
    && LinkInv(r.table.members, r.entries, r.queue.requests)
    && QueueInv(r.queue, r.timeouts, r.policyOpen)
    && LimitsInv(r.limits, r.table.members)
  }

  predicate RoomInv(r: Room) {
    && RosterInv(r)
    && MarksInv(r.replay, r.epoch)
    && r.epoch == r.nextKey >= 1
    && (r.phase != Destroyed ==> EpochInv(r))
  }

  lemma RoomTableIsApart(r: Room)
    requires RoomInv(r)
    ensures TableInv(r.table, r.hostConnection) && AllApart(r.table.members) && r.table.members != []
  {
  }

  lemma RoomKeyed(r: Room)
    requires RoomInv(r)
    ensures r.epoch == r.nextKey >= 1
  {
  }

  lemma RoomAt(r: Room, now: Time)
    requires RoomInv(r)
    ensures RoomInv(r.(now := now))
  {
  }

  lemma TransitionIsPending(r: Room)
    requires RoomInv(r) && r.phase != Destroyed
    ensures r.phase == EpochTransition <==> r.pending.Some?
  {
  }

  // ---- membership changes --------------------------------------------------------

  lemma IdsOfIsIdSet(members: seq<Member>)
    ensures forall id :: id in IdsOf(members) <==> id in IdSet(members)
    ensures |IdsOf(members)| == |members|
  {
    forall id | id in IdSet(members) ensures id in IdsOf(members) {
      var i :| 0 <= i < |members| && members[i].id == id;
      assert IdsOf(members)[i] == id;
    }
  }

  lemma BeginKeeps(r: Room)
    requires RosterInv(r) && r.epoch == r.nextKey && r.phase != Destroyed
    ensures RoomInv(BeginEpochTransition(r).0)
  {
    IdsOfIsIdSet(r.table.members);
  }

  lemma QueueEventsKeeps(r: Room, m: Member, id: MemberId, kicked: bool)
    requires RoomInv(r) && r.phase == EpochTransition
    ensures RoomInv(QueueMemberJoined(r, m))
    ensures RoomInv(QueueMemberGone(r, id, kicked))
  {
    hide TableInv, LinkInv, QueueInv, LimitsInv, MarksInv, PendingInv;
  }

  lemma OtherMembersStay(members: seq<Member>, i: nat, c: ConnectionId, id: MemberId)
    requires i < |members| && members[i].connection != c && HasMember(members, c, id)
    ensures HasMember(Without(members, i), c, id)
  {
    var k :| 0 <= k < |members| && members[k].connection == c && members[k].id == id;
    assert Without(members, i)[if k < i then k else k - 1] == members[k];
  }

  lemma DropKeepsLink(members: seq<Member>, entries: Entries, requests: seq<JoinRequest>, i: nat)
    requires LinkInv(members, entries, requests) && AllApart(members) && i < |members|
    ensures LinkInv(Without(members, i), entries - {members[i].connection}, requests)
  {
    var rest := Without(members, i);
    var c0 := members[i].connection;
    forall k | 0 <= k < |rest| ensures rest[k].connection in entries && rest[k].connection != c0
      && entries[rest[k].connection].role == ActiveMember(rest[k].id) {
      assert rest[k] == members[if k < i then k else k + 1];
    }
    forall k | 0 <= k < |requests| ensures requests[k].connection != c0 {
      assert entries[requests[k].connection].role != entries[c0].role;
    }
    forall c | c in entries && c != c0 && entries[c].role.ActiveMember? ensures HasMember(rest, c, entries[c].role.id) {
      OtherMembersStay(members, i, c, entries[c].role.id);
    }
    hide HasRequest, HasMember;
  }

  lemma DropKeeps(r: Room, i: nat)
    requires RosterInv(r) && 0 < i < |r.table.members|
    ensures RosterInv(DropMember(r, i))
    ensures IdSet(DropMember(r, i).table.members) == IdSet(r.table.members) - {r.table.members[i].id}
  {
    RemoveKeepsTable(r.table, r.hostConnection, i);
    DropKeepsLink(r.table.members, r.entries, r.queue.requests, i);
  }

  lemma DropFrame(r: Room, i: nat)
    requires i < |r.table.members|
    ensures var d := DropMember(r, i); d == r.(table := d.table, entries := d.entries, limits := d.limits)
  {
  }

  lemma MemberZeroIsHost(t: Table, host: ConnectionId, i: nat)
    requires TableInv(t, host) && i < |t.members|
    ensures t.members[i].id == HOST_ID <==> i == 0
    ensures t.members[i].isHost <==> i == 0
    ensures t.members[i].connection == host <==> i == 0
  {
  }

  lemma {:induction false} RemoveMemberKeeps(r: Room, id: MemberId, kicked: bool)
    requires RoomInv(r) && r.phase != Destroyed && id != HOST_ID
    ensures RemoveMember(r, id, kicked).Some? && RoomInv(RemoveMember(r, id, kicked).value.0)
    ensures RemoveMember(r, id, kicked).value.2.None? ==> RemoveMember(r, id, kicked).value.0 == r
  {
    hide TableInv, LinkInv, QueueInv, LimitsInv, MarksInv, PendingInv, QueueMemberGone, DropMember;
    var p := PositionOfId(r.table.members, id);
    if p.Some? {
      MemberZeroIsHost(r.table, r.hostConnection, p.value);
      DropKeeps(r, p.value);
      DropFrame(r, p.value);
      BeginKeeps(DropMember(r, p.value));
      QueueEventsKeeps(BeginEpochTransition(DropMember(r, p.value)).0, r.table.members[p.value], id, kicked);
    }
  }

  lemma {:induction false} EvictKeeps(r: Room, ids: seq<MemberId>)
    requires RosterInv(r) && HOST_ID !in ids
    ensures var (r1, _, _) := EvictAll(r, ids);
      RosterInv(r1) && r1 == r.(table := r1.table, entries := r1.entries, limits := r1.limits)
      && IdSet(r1.table.members) == IdSet(r.table.members) - (set id | id in ids)
    decreases |ids|
  {
    hide LinkInv, QueueInv, LimitsInv;
    if ids != [] {
      var before := ids[..|ids| - 1];
      var id := ids[|ids| - 1];
      assert ids == before + [id];
      EvictKeeps(r, before);
      var (r1, _, _) := EvictAll(r, before);
      var p := PositionOfId(r1.table.members, id);
      if p.Some? { DropKeeps(r1, p.value); }
      assert p.None? ==> id !in IdSet(r1.table.members);
    }
  }

  lemma {:induction false} QueueAllGoneFrame(r: Room, ids: seq<MemberId>, kicked: bool)
    ensures var q := QueueAllGone(r, ids, kicked);
      q == r.(sequence := q.sequence, deferred := q.deferred) && q.sequence == r.sequence + |ids|
    decreases |ids|
  {
    if ids != [] { QueueAllGoneFrame(r, ids[..|ids| - 1], kicked); }
  }

  lemma {:induction false} EpochTimeoutKeeps(r: Room)
    requires RoomInv(r) && r.phase != Destroyed
    ensures RoomInv(OnEpochTimeout(r).0)
  {
    hide TableInv, LinkInv, QueueInv, LimitsInv, MarksInv, EvictAll, QueueAllGone, WrapAll, IdsOf;
    if r.pending.Some? && Elapsed(r.now, r.pending.value.startedAt) >= r.acknowledgeWithin
      && HOST_ID !in r.pending.value.awaiting {
      var r0 := r.(pending := None);
      EvictKeeps(r0, r.pending.value.awaiting);
      var (r1, _, removed) := EvictAll(r0, r.pending.value.awaiting);
      BeginKeeps(r1);
      QueueAllGoneFrame(BeginEpochTransition(r1).0, removed, false);
    }
  }

  lemma {:induction false} EpochAckKeeps(r: Room, c: ConnectionId, epoch: nat)
    requires RoomInv(r) && r.phase != Destroyed
    ensures RoomInv(OnEpochAck(r, c, epoch).0)
  {
    hide TableInv, LinkInv, QueueInv, LimitsInv, MarksInv;
    if r.pending.Some? && epoch == r.pending.value.epoch && MemberOf(r.entries, c).Some? {
      var p := r.pending.value;
      var rest := RetainNot(p.awaiting, MemberOf(r.entries, c).value);
      var r1 := OnEpochAck(r, c, epoch).0;
      assert RosterInv(r1) && MarksInv(r1.replay, r1.epoch);
      if 0 < |rest| < |p.awaiting| {
        assert PendingInv(p.(awaiting := rest), r.epoch, CurrentKey(r), r.table.members);
      }
      assert EpochInv(r1);
    }
  }

  // ---- admission -----------------------------------------------------------------

  lemma TakeKeepsQueue(q: Queue, ts: seq<TimeoutRequest>, policyOpen: bool, i: nat)
    requires QueueInv(q, ts, policyOpen) && i < |q.requests|
    ensures QueueInv(TakeAt(q, i), ts, policyOpen)
  {
    var rest := TakeAt(q, i).requests;
    assert forall k :: 0 <= k < |rest| ==> rest[k] == q.requests[if k < i then k else k + 1];
  }

  lemma OtherRequestsStay(requests: seq<JoinRequest>, i: nat, c: ConnectionId, id: RequestId)
    requires i < |requests| && requests[i].connection != c && HasRequest(requests, c, id)
    ensures HasRequest(requests[..i] + requests[i + 1..], c, id)
  {
    var k :| 0 <= k < |requests| && requests[k].connection == c && requests[k].id == id;
    assert (requests[..i] + requests[i + 1..])[if k < i then k else k - 1] == requests[k];
  }

  lemma TakeKeepsLink(members: seq<Member>, entries: Entries, q: Queue, i: nat)
    requires LinkInv(members, entries, q.requests) && i < |q.requests|
    requires forall j, k :: 0 <= j < k < |q.requests| ==> q.requests[j].id < q.requests[k].id
    ensures LinkInv(members, entries - {q.requests[i].connection}, TakeAt(q, i).requests)
  {
    var rest := TakeAt(q, i).requests;
    var c0 := q.requests[i].connection;
    assert entries[c0].role == AwaitingDecision(q.requests[i].id);
    forall k | 0 <= k < |rest| ensures rest[k].connection in entries && rest[k].connection != c0
      && entries[rest[k].connection].role == AwaitingDecision(rest[k].id) {
      assert rest[k] == q.requests[if k < i then k else k + 1];
    }
    forall c | c in entries && c != c0 && entries[c].role.AwaitingDecision?
      ensures HasRequest(rest, c, entries[c].role.request) {
      OtherRequestsStay(q.requests, i, c, entries[c].role.request);
    }
    hide HasRequest, HasMember;
  }

  lemma AddKeepsLink(members: seq<Member>, entries: Entries, requests: seq<JoinRequest>, m: Member)
    requires LinkInv(members, entries, requests)
    requires m.connection !in entries
    ensures LinkInv(members + [m], entries[m.connection := Entry(true, ActiveMember(m.id))], requests)
  {
    var ms := members + [m];
    var es := entries[m.connection := Entry(true, ActiveMember(m.id))];
    assert ms[|members|] == m;
    forall c | c in es && es[c].role.ActiveMember? ensures HasMember(ms, c, es[c].role.id) {
      if c != m.connection {
        assert HasMember(members, c, entries[c].role.id);
        var k :| 0 <= k < |members| && members[k].connection == c && members[k].id == entries[c].role.id;
        assert ms[k] == members[k];
      }
    }
  }

  lemma AdmittedLink(r: Room, i: nat, m: Member)
    requires RosterInv(r) && i < |r.queue.requests| && m.connection == r.queue.requests[i].connection
    ensures LinkInv(r.table.members + [m],
      WithRole(Registered(r.entries, m.connection), m.connection, ActiveMember(m.id)), TakeAt(r.queue, i).requests)
  {
    hide TableInv, LimitsInv;
    var q := r.queue.requests[i];
    TakeKeepsLink(r.table.members, r.entries, r.queue, i);
    assert r.entries[q.connection].role == AwaitingDecision(q.id);
    assert r.entries[q.connection].passwordVerified;
    AddKeepsLink(r.table.members, r.entries - {q.connection}, TakeAt(r.queue, i).requests, m);
    hide LinkInv;
    assert WithRole(Registered(r.entries, q.connection), q.connection, ActiveMember(m.id))
      == (r.entries - {q.connection})[q.connection := Entry(true, ActiveMember(m.id))];
  }

  lemma AdmittedRoster(r: Room, i: nat, table: Table, m: Member)
    requires RosterInv(r) && i < |r.queue.requests|
    requires var q := r.queue.requests[i];
      AddMember(r.table, q.connection, q.application, r.epoch + 1) == Ok((table, m))
    ensures var c := r.queue.requests[i].connection;
      RosterInv(r.(queue := TakeAt(r.queue, i), table := table,
                   entries := WithRole(Registered(r.entries, c), c, ActiveMember(m.id))))
  {
    var q := r.queue.requests[i];
    assert q.application.nickname.valid;
    hide LinkInv, QueueInv;
    AddKeepsTable(r.table, r.hostConnection, q.connection, q.application, r.epoch + 1);
    hide TableInv;
    AdmittedLink(r, i, m);
    TakeKeepsQueue(r.queue, r.timeouts, r.policyOpen, i);
    assert table.members == r.table.members + [m];
    assert forall k :: 0 <= k < |r.table.members| ==> table.members[k] == r.table.members[k];
    assert LimitsInv(r.limits, table.members);
  }

  lemma RejectedRoster(r: Room, i: nat)
    requires RoomInv(r) && i < |r.queue.requests|
    ensures RoomInv(r.(queue := TakeAt(r.queue, i), entries := r.entries - {r.queue.requests[i].connection}))
  {
    TakeKeepsQueue(r.queue, r.timeouts, r.policyOpen, i);
    TakeKeepsLink(r.table.members, r.entries, r.queue, i);
  }

  lemma {:induction false} AdmitKeeps(r: Room, i: nat)
    requires RoomInv(r) && r.phase != Destroyed && i < |r.queue.requests|
    ensures RoomInv(Admit(r.(queue := TakeAt(r.queue, i)), r.queue.requests[i]).0)
  {
    hide TableInv, LinkInv, QueueInv, LimitsInv, MarksInv, PendingInv, QueueMemberJoined;
    var q := r.queue.requests[i];
    var c := q.connection;
    var added := AddMember(r.table, c, q.application, r.epoch + 1);
    if added.Ok? {
      var (table, m) := added.value;
      var admitted := r.(queue := TakeAt(r.queue, i), table := table,
                         entries := WithRole(Registered(r.entries, c), c, ActiveMember(m.id)));
      AdmittedRoster(r, i, table, m);
      BeginKeeps(admitted);
      QueueEventsKeeps(BeginEpochTransition(admitted).0, m, m.id, false);
    } else {
      RejectedRoster(r, i);
    }
  }

  lemma WithoutTimeoutKeeps(r: Room, i: nat)
    requires RoomInv(r) && i < |r.timeouts|
    ensures RoomInv(WithoutTimeout(r, i))
  {
    var rest := WithoutTimeout(r, i).timeouts;
    assert forall k :: 0 <= k < |rest| ==> rest[k] == r.timeouts[if k < i then k else k + 1];
  }

  lemma AcceptKeeps(r: Room, id: RequestId)
    requires RoomInv(r) && r.phase != Destroyed
    ensures RoomInv(OnAccept(r, id).0)
  {
    var t := PositionOfTimeout(r.timeouts, id);
    var p := PositionOfRequest(r.queue.requests, id);
    if t.Some? { WithoutTimeoutKeeps(r, t.value); }
    else if p.Some? { AdmitKeeps(r, p.value); }
  }

  lemma RejectKeeps(r: Room, id: RequestId)
    requires RoomInv(r) && r.phase != Destroyed
    ensures RoomInv(OnReject(r, id).0)
  {
    var t := PositionOfTimeout(r.timeouts, id);
    var p := PositionOfRequest(r.queue.requests, id);
    if t.Some? { WithoutTimeoutKeeps(r, t.value); }
    else if p.Some? { RejectedRoster(r, p.value); }
  }

  lemma PushKeepsLink(members: seq<Member>, entries: Entries, requests: seq<JoinRequest>, q: JoinRequest)
    requires LinkInv(members, entries, requests)
    requires q.connection in entries && entries[q.connection].passwordVerified &&
      entries[q.connection].role.InAdmission?
    ensures LinkInv(members, WithRole(entries, q.connection, AwaitingDecision(q.id)), requests + [q])
  {
    hide HasMember;
    var es := WithRole(entries, q.connection, AwaitingDecision(q.id));
    var qs := requests + [q];
    assert qs[|requests|] == q;
    forall d | d in es && es[d].role.AwaitingDecision? ensures HasRequest(qs, d, es[d].role.request) {
      if d != q.connection {
        assert HasRequest(requests, d, entries[d].role.request);
        var k :| 0 <= k < |requests| && requests[k].connection == d && requests[k].id == entries[d].role.request;
        assert qs[k] == requests[k];
      }
    }
  }

  lemma {:induction false} JoinRequestedKeeps(r: Room, c: ConnectionId, a: Application)
    requires RoomInv(r) && r.phase != Destroyed && r.phase != EpochTransition && a.nickname.valid
    ensures RoomInv(OnJoinRequested(r, c, a).0)
  {
    hide LinkInv, TableInv, LimitsInv, MarksInv;
    var pushed := Push(r.queue, c, a);
    if r.policyOpen && c in r.entries && r.entries[c].passwordVerified && r.entries[c].role.InAdmission? &&
      pushed.Some? {
      PushKeepsLink(r.table.members, r.entries, r.queue.requests, JoinRequest(pushed.value.1, c, a));
    }
  }

  lemma CloseAdmissionsKeepsLink(members: seq<Member>, entries: Entries, requests: seq<JoinRequest>)
    requires LinkInv(members, entries, requests)
    ensures var queued := entries - ConnectionsOf(requests); LinkInv(members, queued - NonMembers(queued), [])
  {
    var queued := entries - ConnectionsOf(requests);
    var left := queued - NonMembers(queued);
    forall i | 0 <= i < |members| ensures members[i].connection in left {
      assert entries[members[i].connection].role.ActiveMember?;
    }
  }

  lemma {:induction false} SetPolicyKeeps(r: Room, open: bool)
    requires RoomInv(r) && r.phase != Destroyed && r.phase != EpochTransition
    ensures RoomInv(SetPolicy(r, open).0)
  {
    if !open { CloseAdmissionsKeepsLink(r.table.members, r.entries, r.queue.requests); }
  }

  lemma NewIdKeeps(r: Room)
    requires RoomInv(r) && r.phase != Destroyed
    ensures RoomInv(OnNewId(r).0)
  {
    CloseAdmissionsKeepsLink(r.table.members, r.entries, r.queue.requests);
  }

  // ---- losses ----------------------------------------------------------------------

  lemma {:induction false} TimeoutsNotOfIsFilter(ts: seq<TimeoutRequest>, c: ConnectionId)
    ensures |TimeoutsNotOf(ts, c)| <= |ts|
    ensures forall t :: t in TimeoutsNotOf(ts, c) <==> t in ts && t.connection != c
    decreases |ts|
  {
    if ts != [] {
      TimeoutsNotOfIsFilter(ts[..|ts| - 1], c);
      assert ts == ts[..|ts| - 1] + [ts[|ts| - 1]];
    }
  }

  lemma {:induction false} TimeoutsNotOfIsSorted(ts: seq<TimeoutRequest>, c: ConnectionId)
    requires forall i, j :: 0 <= i < j < |ts| ==> ts[i].id < ts[j].id
    ensures var left := TimeoutsNotOf(ts, c); forall i, j :: 0 <= i < j < |left| ==> left[i].id < left[j].id
    decreases |ts|
  {
    if ts != [] {
      var before := ts[..|ts| - 1];
      TimeoutsNotOfIsSorted(before, c);
      TimeoutsNotOfIsFilter(before, c);
      var left := TimeoutsNotOf(before, c);
      forall i | 0 <= i < |left| ensures left[i].id < ts[|ts| - 1].id {
        assert left[i] in before;
      }
    }
  }

  lemma WithdrawTimeoutsKeeps(r: Room, c: ConnectionId)
    requires RoomInv(r)
    ensures RoomInv(r.(timeouts := TimeoutsNotOf(r.timeouts, c)))
  {
    hide TableInv, LinkInv, LimitsInv, MarksInv, PendingInv;
    TimeoutsNotOfIsFilter(r.timeouts, c);
    TimeoutsNotOfIsSorted(r.timeouts, c);
    var ts := TimeoutsNotOf(r.timeouts, c);
    assert forall j :: 0 <= j < |ts| ==> ts[j] in r.timeouts;
  }

  // The member a connection stands for, and the other way round.
  lemma MemberOfConnection(r: Room, c: ConnectionId)
    requires RosterInv(r)
    ensures MemberOf(r.entries, c).Some? ==> HasMember(r.table.members, c, MemberOf(r.entries, c).value)
    ensures PositionOfConnection(r.table.members, c).Some? <==> MemberOf(r.entries, c).Some?
    ensures PositionOfConnection(r.table.members, c).Some? ==>
      MemberOf(r.entries, c) == Some(r.table.members[PositionOfConnection(r.table.members, c).value].id)
    ensures MemberOf(r.entries, c) == Some(HOST_ID) <==> c == r.hostConnection
  {
  }

  lemma ForgetKeepsLink(r: Room, c: ConnectionId)
    requires RosterInv(r) && MemberOf(r.entries, c).None? && RequestOf(r.entries, c).None?
    ensures LinkInv(r.table.members, r.entries - {c}, r.queue.requests)
  {
  }

  lemma QueuedRequestOf(r: Room, c: ConnectionId)
    requires RosterInv(r) && RequestOf(r.entries, c).Some?
    ensures var p := PositionOfRequest(r.queue.requests, RequestOf(r.entries, c).value);
      p.Some? && r.queue.requests[p.value].connection == c
  {
    hide TableInv, LimitsInv;
    assert HasRequest(r.queue.requests, c, RequestOf(r.entries, c).value);
  }

  lemma {:induction false} ConnectionLostKeeps(r: Room, c: ConnectionId)
    requires RoomInv(r) && r.phase != Destroyed
    ensures RoomInv(OnConnectionLost(r, c).0)
  {
    hide TableInv, QueueInv, LimitsInv, MarksInv;
    if c != r.hostConnection {
      var r0 := r.(timeouts := TimeoutsNotOf(r.timeouts, c));
      WithdrawTimeoutsKeeps(r, c);
      MemberOfConnection(r0, c);
      var member := MemberOf(r0.entries, c);
      if member.Some? {
        RemoveMemberKeeps(r0, member.value, false);
        LostConnectionIsGone(r0, c, member.value, false);
      } else if RequestOf(r0.entries, c).Some? {
        QueuedRequestOf(r0, c);
        RejectedRoster(r0, PositionOfRequest(r0.queue.requests, RequestOf(r0.entries, c).value).value);
      } else {
        ForgetKeepsLink(r0, c);
      }
    }
  }

  lemma LostConnectionIsGone(r: Room, c: ConnectionId, id: MemberId, kicked: bool)
    requires RosterInv(r) && MemberOf(r.entries, c) == Some(id) && id != HOST_ID
    ensures RemoveMember(r, id, kicked).Some? && RemoveMember(r, id, kicked).value.2.Some?
    ensures c !in RemoveMember(r, id, kicked).value.0.entries
    ensures RemoveMember(r, id, kicked).value.0.entries - {c} == RemoveMember(r, id, kicked).value.0.entries
  {
    assert HasMember(r.table.members, c, id);
    var p := PositionOfId(r.table.members, id);
    assert r.table.members[p.value].connection == c;
  }

  lemma CloseKeeps(r: Room)
    requires RoomInv(r)
    ensures RoomInv(CloseRoom(r).0)
  {
  }

  // ---- members and chat --------------------------------------------------------------

  lemma RecoloredLink(members: seq<Member>, entries: Entries, requests: seq<JoinRequest>, i: nat, m: Member)
    requires LinkInv(members, entries, requests) && i < |members|
    requires m.id == members[i].id && m.connection == members[i].connection
    ensures LinkInv(members[i := m], entries, requests)
  {
    var ms := members[i := m];
    forall c, id | HasMember(members, c, id) ensures HasMember(ms, c, id) {
      var k :| 0 <= k < |members| && members[k].connection == c && members[k].id == id;
      assert ms[k].connection == c && ms[k].id == id;
    }
  }

  lemma RecoloredKeeps(r: Room, id: MemberId, color: Color)
    requires RoomInv(r)
    ensures RoomInv(Recolored(r, id, color))
  {
    hide LinkInv, QueueInv, MarksInv, TableInv;
    var p := PositionOfId(r.table.members, id);
    if p.Some? {
      SetColorKeepsTable(r.table, r.hostConnection, p.value, color);
      RecoloredLink(r.table.members, r.entries, r.queue.requests, p.value, r.table.members[p.value].(color := color));
    }
  }

  lemma LeaveKeeps(r: Room, c: ConnectionId)
    requires RoomInv(r) && r.phase != Destroyed
    ensures RoomInv(OnLeave(r, c).0)
  {
    var member := MemberOf(r.entries, c);
    if c != r.hostConnection && member.Some? && member.value != HOST_ID {
      RemoveMemberKeeps(r, member.value, false);
    }
  }

  lemma KickKeeps(r: Room, target: MemberRef)
    requires RoomInv(r) && r.phase != Destroyed
    ensures RoomInv(OnKick(r, target).0)
  {
    var found := Resolve(r, target);
    if found.Ok? && found.value < |r.table.members| && !r.table.members[found.value].isHost {
      RemoveMemberKeeps(r, r.table.members[found.value].id, true);
    }
  }

  lemma DepartedKeeps(r: Room, id: MemberId)
    requires RoomInv(r) && r.phase != Destroyed
    ensures RoomInv(OnMemberDeparted(r, id).0)
  {
    if id != HOST_ID { RemoveMemberKeeps(r, id, false); }
  }

  lemma AskForTimeoutKeeps(r: Room, c: ConnectionId, e: Envelope, p: Plaintext)
    requires RoomInv(r) && r.phase != Destroyed
    ensures RoomInv(AskForTimeout(r, c, e, p).0)
  {
    hide TableInv, LinkInv, LimitsInv, MarksInv;
  }

  lemma RelayPlaintextKeeps(r: Room, c: ConnectionId, kind: nat, e: Envelope, p: Plaintext)
    requires RoomInv(r) && r.phase != Destroyed
    ensures RoomInv(RelayPlaintext(r, c, kind, e, p).0)
  {
    if kind == MSG_COLOR {
      if |p.data| == 1 && ColorFromIndex(p.data[0]).Some? {
        RecoloredKeeps(r, e.sender, ColorFromIndex(p.data[0]).value);
      }
    } else if kind == MSG_TIMEOUT_REQUEST {
      AskForTimeoutKeeps(r, c, e, p);
    }
  }

  lemma OpenAndRelayKeeps(r: Room, c: ConnectionId, kind: nat, e: Envelope)
    requires RoomInv(r) && r.phase != Destroyed
    ensures RoomInv(OpenAndRelay(r, c, kind, e).0)
  {
    var plain := ChatPlaintext(r, kind, e);
    if e.epoch == r.epoch && Fresh(r.replay, e.sender, r.epoch, e.sequence) && plain.Ok? {
      RelayPlaintextKeeps(r.(replay := Accepted(r.replay, e.sender, r.epoch, e.sequence)), c, kind, e, plain.value);
    }
  }

  lemma {:induction false} ChatKeeps(r: Room, c: ConnectionId, kind: nat, e: Envelope)
    requires RoomInv(r) && r.phase != Destroyed
    ensures RoomInv(OnChatReceived(r, c, kind, e).0)
  {
    hide TableInv, LinkInv, QueueInv, MarksInv;
    var member := MemberOf(r.entries, c);
    if member.Some? && e.sender == member.value && PositionOfId(r.table.members, member.value).Some? {
      var id := member.value;
      if !RateLimited(kind) { OpenAndRelayKeeps(r, c, kind, e); }
      else {
        var (bucket, allowed) := Allow(BucketOf(r, id), r.now);
        var r1 := r.(limits := r.limits[id := bucket]);
        assert r.table.members[PositionOfId(r.table.members, id).value].id == id;
        assert RoomInv(r1);
        if allowed { OpenAndRelayKeeps(r1, c, kind, e); }
        else if id != HOST_ID { RemoveMemberKeeps(r1, id, true); }
      }
    }
  }

  // ---- every event -----------------------------------------------------------------

  // What the connection layer guarantees of a join application: `JoinRequest::new` validated
  // its nickname.
  predicate Admissible(event: Event) {
    event.JoinRequested? ==> event.application.nickname.valid
  }

  lemma EntriesOnlyKeeps(r: Room, c: ConnectionId)
    requires RoomInv(r)
    ensures RoomInv(r.(entries := Registered(r.entries, c)))
    ensures RoomInv(r.(entries := PasswordMarked(r.entries, c)))
  {
  }

  lemma HostCommandKeeps(r: Room, command: HostCommand)
    requires RoomInv(r) && r.phase != Destroyed && r.phase != EpochTransition
    ensures RoomInv(OnHostCommandAt(r, command).0)
  {
    hide RoomInv;
    match command
    case Kick(target) => KickKeeps(r, target);
    case NewId => NewIdKeeps(r);
    case ReqOn => SetPolicyKeeps(r, true);
    case ReqOff => SetPolicyKeeps(r, false);
    case Requests =>
    case Accept(id) => AcceptKeeps(r, id);
    case Reject(id) => RejectKeeps(r, id);
  }

  lemma MemberCommandKeeps(r: Room, c: ConnectionId, command: MemberCommand)
    requires RoomInv(r) && r.phase != Destroyed && r.phase != EpochTransition
    ensures RoomInv(OnMemberCommandAt(r, c, command).0)
  {
    hide RoomInv;
    match command
    case Leave => LeaveKeeps(r, c);
    case SetColor(color) =>
      RecoloredKeeps(r, HOST_ID, color);
      if MemberOf(r.entries, c).Some? { RecoloredKeeps(r, MemberOf(r.entries, c).value, color); }
    case List =>
    case Whois(_) =>
  }

  lemma SettledKeeps(r: Room, event: Event)
    requires RoomInv(r) && r.phase != Destroyed && r.phase != EpochTransition && Admissible(event)
    ensures RoomInv(HandleSettled(r, event).0)
  {
    hide RoomInv;
    match event
    case ClientConnected(c) => EntriesOnlyKeeps(r, c);
    case PasswordVerified(c) => EntriesOnlyKeeps(r, c);
    case EpochAck(c, epoch) => EpochAckKeeps(r, c, epoch);
    case JoinRequested(c, a) => JoinRequestedKeeps(r, c, a);
    case OnHostCommand(command) => HostCommandKeeps(r, command);
    case OnMemberCommand(c, command) => MemberCommandKeeps(r, c, command);
    case HostAccepted(id) => AcceptKeeps(r, id);
    case HostRejected(id) => RejectKeeps(r, id);
    case ConnectionLost(c) => ConnectionLostKeeps(r, c);
    case TimeoutExpired(c, _) => ConnectionLostKeeps(r, c);
    case EpochMaintenance =>
    case MemberDeparted(id) => DepartedKeeps(r, id);
    case ChatReceived(c, kind, e) => ChatKeeps(r, c, kind, e);
    case TorStopped => CloseKeeps(r);
    case CloseRequested => CloseKeeps(r);
  }

  lemma TransitionKeeps(r: Room, event: Event)
    requires RoomInv(r) && r.phase == EpochTransition
    ensures RoomInv(HandleInTransition(r, event).0)
  {
    hide RoomInv;
    match event
    case EpochAck(c, epoch) => EpochAckKeeps(r, c, epoch);
    case ConnectionLost(c) => ConnectionLostKeeps(r, c);
    case TimeoutExpired(c, _) => ConnectionLostKeeps(r, c); EpochTimeoutKeeps(r);
    case EpochMaintenance => EpochTimeoutKeeps(r);
    case CloseRequested => CloseKeeps(r);
    case TorStopped => CloseKeeps(r);
    case ChatReceived(c, kind, e) => ChatKeeps(r, c, kind, e);
    case _ =>
  }

  lemma {:induction false} HandleKeeps(r: Room, event: Event, now: Time)
    requires RoomInv(r) && Admissible(event)
    ensures RoomInv(Handle(r, event, now).0)
  {
    var at := r.(now := now);
    assert RoomInv(at);
    if at.phase == EpochTransition { TransitionKeeps(at, event); }
    else if at.phase != Destroyed { SettledKeeps(at, event); }
  }

  lemma {:induction false} StartedHolds(host: HostIdentity, memberLimit: nat, requestLimit: nat, within: Time)
    requires 1 <= memberLimit <= MAX_MEMBERS && host.nickname.valid
    ensures RoomInv(Started(host, memberLimit, requestLimit, within).0)
  {
    IdsOfIsIdSet(Started(host, memberLimit, requestLimit, within).0.table.members);
    assert HasMember(Started(host, memberLimit, requestLimit, within).0.table.members, host.connection, HOST_ID);
  }
}
