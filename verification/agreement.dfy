// Every member ends up with the host's member table, as long as no removal restarts a pending
// epoch transition; and a restart always makes the host refuse one of its own announcements.
module Agreement {
  import opened RoomTypes
  import opened Members
  import opened Actor
  import opened ActorInvariants
  import opened ActorMoves
  import opened Session
  import opened Views
  import opened Channels

  // ---- agreement ---------------------------------------------------------------------

  predicate MemberAgrees(r: Room, log: seq<Action>, m: Member) {
    Agrees(ViewOf(r.hostKey, m, log), m.connection, r.deferred, r.table.members)
  }

  // What every member knows, or will know once the deferred announcements reach it, is the
  // table itself, and nobody refused anything.
  predicate AgreementInv(r: Room, log: seq<Action>) {
    forall i :: 0 <= i < |r.table.members| ==> MemberAgrees(r, log, r.table.members[i])
  }

  // A removal while the members still acknowledge the previous epoch.
  predicate Restarts(r: Room, r': Room) { r.pending.Some? && r'.epoch > r.epoch }

  lemma SameAgreement(r: Room, r': Room, log: seq<Action>, log': seq<Action>, i: nat)
    requires SameRoom(r, r') && i < |r.table.members| && |r'.table.members| == |r.table.members|
    requires Agrees(ViewOf(r.hostKey, r.table.members[i], log'), r.table.members[i].connection, r'.deferred,
      r.table.members)
    ensures MemberAgrees(r', log', r'.table.members[i])
  {
    hide ViewOf, Agrees;
    SameMembers(r, r');
    SameView(r.hostKey, r.table.members[i], r'.table.members[i], log');
    assert Plain(r'.table.members[i]) == Plain(r.table.members[i]);
    AgreesByCores(ViewOf(r.hostKey, r.table.members[i], log'), r.table.members[i].connection, r'.deferred,
      r.table.members, r'.table.members);
  }

  lemma AgreesByCores(v: View, c: ConnectionId, deferred: seq<Action>, a: seq<Member>, b: seq<Member>)
    requires Agrees(v, c, deferred, a) && MemberCores(a) == MemberCores(b)
    ensures Agrees(v, c, deferred, b)
  {
  }

  lemma IdleAgrees(r: Room, r': Room, log: seq<Action>, actions: seq<Action>)
    requires AgreementInv(r, log) && IdleOk(r, r', actions)
    ensures AgreementInv(r', log + actions)
  {
    hide ViewOf, Agrees, AllQuiet, MemberAgrees, SameRoom, NothingFor;
    SameRoomSize(r, r');
    forall i | 0 <= i < |r'.table.members| ensures MemberAgrees(r', log + actions, r'.table.members[i]) {
      var m := r.table.members[i];
      QuietIsNothing(m.connection, actions);
      ViewAfter(r.hostKey, m, log, actions);
      ReceiveNothing(m.connection, ViewOf(r.hostKey, m, log), actions);
      UnfoldAgrees(r, log, m);
      SameAgreement(r, r', log, log + actions, i);
    }
  }

  lemma SameRoomSize(r: Room, r': Room)
    requires SameRoom(r, r')
    ensures |r'.table.members| == |r.table.members|
  {
  }

  lemma UnfoldAgrees(r: Room, log: seq<Action>, m: Member)
    requires MemberAgrees(r, log, m)
    ensures Agrees(ViewOf(r.hostKey, m, log), m.connection, r.deferred, r.table.members)
  {
  }

  lemma FlushedAgrees(c: ConnectionId, v: View, w: View, deferred: seq<Action>, members: seq<Member>)
    requires Agrees(v, c, deferred, members) && CoreEqual(v, w)
    requires forall i :: 0 <= i < |deferred| ==> deferred[i].SendTo? && deferred[i].message.RoomEvent?
    ensures Agrees(w, c, deferred, members)
  {
    hide ReceiveAll, Receive, Cores, MemberCores;
    FlushRespectsCores(c, v, w, deferred);
  }

  lemma DeferredAreEvents(deferred: seq<Action>, hostKey: PublicKey, epoch: nat, sequence: nat, issued: Issued)
    requires AllDeferredOk(deferred, hostKey, epoch, sequence, issued)
    ensures forall i :: 0 <= i < |deferred| ==> deferred[i].SendTo? && deferred[i].message.RoomEvent?
  {
    assert forall i :: 0 <= i < |deferred| ==> DeferredOk(deferred[i], hostKey, epoch, sequence, issued);
  }

  lemma RelayAgrees(r: Room, r': Room, log: seq<Action>, actions: seq<Action>, issued: Issued, move: Move)
    requires ChannelInv(r, log, issued) && RoomInv(r') && move.RelayChat? && RelayMoveOk(r, r', actions, move)
    requires AgreementInv(r, log)
    ensures AgreementInv(r', log + actions)
  {
    hide ViewOf, Agrees, MemberAgrees, SameRoom, RoomInv, MemberInv, CoreEqual, Authored, AllDeferredOk,
      ChannelsOrdered, AllApart, SendAll, IssuedInv;
    RoomTableIsApart(r');
    RoomKeyed(r);
    SameRoomSize(r, r');
    DeferredAreEvents(r.deferred, r.hostKey, r.epoch, r.sequence, issued);
    var k :| 0 <= k < |r.table.members| &&
      Authored(r.table.members[k], move.c, CurrentKey(r), move.kind, move.envelope, move.plaintext);
    forall i | 0 <= i < |r'.table.members| ensures MemberAgrees(r', log + actions, r'.table.members[i]) {
      var m := r.table.members[i];
      RelayMember(r, r', log, actions, issued, move, i, k);
      UnfoldAgrees(r, log, m);
      FlushedAgrees(m.connection, ViewOf(r.hostKey, m, log), ViewOf(r.hostKey, m, log + actions), r.deferred,
        r.table.members);
      SameAgreement(r, r', log, log + actions, i);
    }
  }

  lemma PolicyAgrees(r: Room, r': Room, log: seq<Action>, actions: seq<Action>, issued: Issued, open: bool,
    closed: seq<Action>)
    requires ChannelInv(r, log, issued) && RoomInv(r') && PolicyOk(r, r', actions, open, closed) && r.deferred == []
    requires AgreementInv(r, log)
    ensures AgreementInv(r', log + actions)
  {
    hide ViewOf, MemberAgrees, SameRoom, RoomInv, MemberInv, AllDeferredOk, AllApart, SendAll, IssuedInv, TopOf,
      Ordered, TableInv, AllQuiet, Cores, MemberCores;
    RoomTableIsApart(r');
    RoomKeyed(r);
    SameRoomSize(r, r');
    forall i | 0 <= i < |r'.table.members| ensures MemberAgrees(r', log + actions, r'.table.members[i]) {
      var m := r.table.members[i];
      assert log + r.deferred == log;
      PolicyMember(r, r', log, actions, issued, open, closed, i);
      UnfoldAgrees(r, log, m);
      SameAgreement(r, r', log, log + actions, i);
    }
  }

  lemma ActivateAgrees(r: Room, r': Room, log: seq<Action>, actions: seq<Action>, issued: Issued, tail: seq<Action>)
    requires ChannelInv(r, log, issued) && RoomInv(r') && ActivateOk(r, r', actions, tail)
    requires AgreementInv(r, log)
    ensures AgreementInv(r', log + actions)
  {
    hide ViewOf, MemberAgrees, SameRoom, RoomInv, MemberInv, IssuedInv, AllDeferredOk, AllQuiet, TopOf, Ordered, Cores,
      MemberCores;
    RoomKeyed(r);
    SameRoomSize(r, r');
    forall i | 0 <= i < |r'.table.members| ensures MemberAgrees(r', log + actions, r'.table.members[i]) {
      var m := r.table.members[i];
      assert Ordered(m.connection, 0, log + r.deferred);
      ActivateMember(r, r', log, actions, issued, tail, i);
      UnfoldAgrees(r, log, m);
      SameAgreement(r, r', log, log + actions, i);
    }
  }

  // ---- admissions and departures ----------------------------------------------------------

  // A member of a room that agrees, under its next epoch key, with an announcement to come.
  predicate Ready(v: View, r: Room, members: seq<Member>, epoch: nat, bound: nat) {
    && v.chat.Some? && v.chat.value.hostKey == r.hostKey && v.refused == []
    && Cores(v.chat.value.members) == MemberCores(members)
    && v.chat.value.epoch.Some? && v.chat.value.epoch.value.0 == epoch
    && LastBelow(v.chat.value, bound)
  }

  lemma OldMemberReady(r: Room, log: seq<Action>, issued: Issued, m: Member, w: View, epoch: nat)
    requires r.nextKey >= 1 && MemberAgrees(r, log, m) && r.deferred == [] && MemberInv(r, log, issued, m)
    requires Rekeyed(ViewOf(r.hostKey, m, log), w) && w.chat.value.epoch.Some? && w.chat.value.epoch.value.0 == epoch
    ensures Ready(w, r, r.table.members, epoch, TopOf(m.connection, 0, log) + 1)
  {
    hide ViewOf, TopOf, Cores, MemberCores;
  }

  // The old member at index `i` learns about the newcomer `m`.
  lemma EnrollOldMember(r: Room, r': Room, v: View, m: Member, i: nat, bound: nat)
    requires i < |r.table.members| && r'.table.members == r.table.members + [m] && AllApart(r'.table.members)
    requires r'.hostKey == r.hostKey && r'.epoch == r.epoch + 1 && r' == QueueMemberJoined(Begun(r, r'), m) &&
      r.deferred == []
    requires m.nickname.valid && m.id != HOST_ID && !m.isHost
    requires Ready(v, r, r.table.members, r'.epoch, bound) && bound <= r.sequence + 1
    ensures Agrees(v, r.table.members[i].connection, r'.deferred, r'.table.members)
  {
    hide AllApart, SendAll, Cores, MemberCores, Receive, ReceiveAll, NothingFor;
    var c := r.table.members[i].connection;
    var event := SignedEvent(r'.(sequence := r.sequence + 2), Joined(m.id, m.nickname, m.ed25519));
    var snapshot := SendTo(m.connection, SignedEvent(r', Snapshot(SnapshotOf(r'.table.members))));
    var joined := SendAll(r'.table.members, TheMember(m.id), event);
    assert r'.deferred == joined + [snapshot];
    assert r'.table.members[i] == r.table.members[i];
    OthersApart(r'.table.members, i, |r.table.members|);
    ApartIds(r'.table.members, i, |r.table.members|);
    ReceiveAllConcat(c, v, joined, [snapshot]);
    ReceiveSendAll(i, v, r'.table.members, TheMember(m.id), event);
    NotForMe(c, snapshot);
    ReceiveNothing(c, Receive(v, event), [snapshot]);
    JoinedIsInstalled(v, event, r.table.members, m);
  }

  lemma ApartIds(members: seq<Member>, i: nat, j: nat)
    requires AllApart(members) && i < |members| && j < |members| && i != j
    ensures members[i].id != members[j].id
  {
    assert Apart(members[if i < j then i else j], members[if i < j then j else i]);
  }

  lemma NotForMe(c: ConnectionId, a: Action)
    requires a.SendTo? && a.connection != c
    ensures NothingFor(c, [a])
  {
  }

  // The newcomer learns the whole table from its snapshot.
  lemma EnrollNewMember(r: Room, r': Room, v: View, m: Member)
    requires r'.table.members == r.table.members + [m] && TableInv(r'.table, r'.hostConnection) &&
      r'.table.limit <= MAX_MEMBERS
    requires r'.hostKey == r.hostKey && r' == QueueMemberJoined(Begun(r, r'), m) && r.deferred == []
    requires v.chat.Some? && v.chat.value.hostKey == r.hostKey && v.refused == [] && v.chat.value.memberId == m.id
    requires v.chat.value.epoch.Some? && v.chat.value.epoch.value.0 == r'.epoch && v.chat.value.lastRoomSequence.None?
    ensures Agrees(v, m.connection, r'.deferred, r'.table.members)
  {
    hide TableInv, AllApart, SendAll, Cores, MemberCores, Receive, ReceiveAll, NothingFor;
    var c := m.connection;
    var k := |r.table.members|;
    var event := SignedEvent(r'.(sequence := r.sequence + 2), Joined(m.id, m.nickname, m.ed25519));
    var snapshot := SignedEvent(r', Snapshot(SnapshotOf(r'.table.members)));
    var joined := SendAll(r'.table.members, TheMember(m.id), event);
    assert r'.deferred == joined + [SendTo(c, snapshot)];
    assert r'.table.members[k] == m;
    TableIsApart(r'.table, r'.hostConnection);
    ReceiveAllConcat(c, v, joined, [SendTo(c, snapshot)]);
    ReceiveSendAll(k, v, r'.table.members, TheMember(m.id), event);
    ReceiveOne(c, v, snapshot);
    SnapshotIsInstalled(v, snapshot, r'.table, r'.hostConnection, k);
  }

  lemma EnrollAgrees(r: Room, r': Room, log: seq<Action>, actions: seq<Action>, issued: Issued, m: Member)
    requires ChannelInv(r, log, issued) && RoomInv(r') && EnrollOk(r, r', actions, m)
    requires ChannelInv(r', log + actions, Enrolled(issued, r'.table.members))
    requires AgreementInv(r, log) && r.deferred == []
    ensures AgreementInv(r', log + actions)
  {
    hide ViewOf, MemberAgrees, Agrees, RosterInv, EpochInv, IssuedInv, AllDeferredOk, MemberInv, TopOf, Ordered,
      AllApart, TableInv, Ready, QueueMemberJoined, MarksInv, SnapshotOf, WrapAll, NothingFor, Enrolled;
    var ms := r'.table.members;
    var issued' := Enrolled(issued, ms);
    RoomTableIsApart(r');
    RoomLimit(r');
    assert ms[|r.table.members|] == m;
    NewcomerIsNotHost(r', |r.table.members|);
    forall i | 0 <= i < |r.table.members| ensures MemberAgrees(r', log + actions, ms[i]) {
      assert ms[i] == r.table.members[i];
      EnrollOldAgrees(r, r', log, actions, issued, issued', m, i);
    }
    NewMember(r, r', log, actions, issued', m);
    InstalledEpoch(r', log + actions, issued', m);
    EnrollNewMember(r, r', ViewOf(r.hostKey, m, log + actions), m);
    FoldAgrees(r', log + actions, m);
    assert forall i :: 0 <= i < |ms| ==> i < |r.table.members| || ms[i] == m;
  }

  lemma RoomLimit(r: Room)
    requires RoomInv(r)
    ensures r.table.limit <= MAX_MEMBERS
  {
  }

  lemma FoldAgrees(r: Room, log: seq<Action>, m: Member)
    requires Agrees(ViewOf(r.hostKey, m, log), m.connection, r.deferred, r.table.members)
    ensures MemberAgrees(r, log, m)
  {
  }

  lemma NewcomerIsNotHost(r: Room, i: nat)
    requires RoomInv(r) && 0 < i < |r.table.members|
    ensures r.table.members[i].nickname.valid && r.table.members[i].id != HOST_ID
  {
    MemberZeroIsHost(r.table, r.hostConnection, i);
  }

  lemma InstalledEpoch(r: Room, log: seq<Action>, issued: Issued, m: Member)
    requires r.nextKey >= 1 && MemberInv(r, log, issued, m)
    ensures var v := ViewOf(r.hostKey, m, log);
      v.chat.Some? && v.chat.value.hostKey == r.hostKey && v.chat.value.memberId == m.id
      && v.chat.value.epoch.Some? && v.chat.value.epoch.value.0 == r.epoch
  {
    hide ViewOf, TopOf;
  }

  lemma EnrollOldAgrees(r: Room, r': Room, log: seq<Action>, actions: seq<Action>, issued: Issued, issued': Issued,
    m: Member, i: nat)
    requires ChannelInv(r, log, issued) && RoomInv(r') && EnrollOk(r, r', actions, m) && i < |r.table.members|
    requires m.nickname.valid && m.id != HOST_ID && issued' == Enrolled(issued, r'.table.members)
    requires AgreementInv(r, log) && r.deferred == []
    ensures MemberAgrees(r', log + actions, r.table.members[i])
  {
    hide ViewOf, MemberAgrees, Agrees, RosterInv, EpochInv, IssuedInv, AllDeferredOk, MemberInv, TopOf, Ordered,
      AllApart, TableInv, Ready, QueueMemberJoined, SnapshotOf, WrapAll, NothingFor, Enrolled, MarksInv;
    var ms := r'.table.members;
    var x := r.table.members[i];
    var before := [SendTo(m.connection, JoinAccepted(m.id)), Notify(MemberJoined(m.id, m.nickname))];
    RoomTableIsApart(r');
    assert ms[i] == x && ms[|r.table.members|] == m;
    OthersApart(ms, i, |r.table.members|);
    AdmissionIsNotFor(x.connection, m);
    EnrolledGrows(issued, ms);
    assert actions == before + WrapAll(ms, r'.epoch, EpochKey(r.nextKey)) + [];
    NextEpochMember(r, r', log, actions, before, [], issued, issued', x, i);
    InstalledEpoch(r', log + actions, issued', x);
    OldMemberReady(r, log, issued, x, ViewOf(r.hostKey, x, log + actions), r'.epoch);
    assert log + r.deferred == log;
    assert TopOf(x.connection, 0, log) <= r.sequence;
    EnrollOldMember(r, r', ViewOf(r.hostKey, x, log + actions), m, i, TopOf(x.connection, 0, log) + 1);
    FoldAgrees(r', log + actions, x);
  }

  // A survivor learns that the member at index `k` is gone.
  lemma DepartSurvivor(r: Room, r': Room, v: View, ids: seq<MemberId>, kicked: bool, k: nat, i: nat, bound: nat)
    requires k < |r.table.members| && ids == [r.table.members[k].id] && AllApart(r.table.members) &&
      AllApart(r'.table.members)
    requires r'.table.members == Without(r.table.members, k) && i < |r'.table.members|
    requires r'.hostKey == r.hostKey && r' == QueueAllGone(Begun(r, r'), ids, kicked) && r.deferred == []
    requires Ready(v, r, r.table.members, r'.epoch, bound) && bound <= r.sequence + 1
    ensures Agrees(v, r'.table.members[i].connection, r'.deferred, r'.table.members)
  {
    hide AllApart, SendAll, Cores, MemberCores, Receive, ReceiveAll, Without;
    var c := r'.table.members[i].connection;
    var id := r.table.members[k].id;
    var b := Begun(r, r');
    QueueOneGone(b, id, kicked);
    var event := SignedEvent(r', GoneBody(id, kicked));
    assert r'.deferred == SendAll(r'.table.members, Nobody, event);
    ReceiveSendAll(i, v, r'.table.members, Nobody, event);
    GoneIsInstalled(v, event, r.table.members, k);
  }

  lemma QueueOneGone(b: Room, id: MemberId, kicked: bool)
    ensures QueueAllGone(b, [id], kicked) == QueueMemberGone(b, id, kicked)
  {
    assert [id][..0] == [];
    assert QueueAllGone(b, [], kicked) == b;
  }

  lemma DepartAgrees(r: Room, r': Room, log: seq<Action>, actions: seq<Action>, issued: Issued, move: Move)
    requires ChannelInv(r, log, issued) && RoomInv(r') && move.Depart? && DepartOk(r, r', actions, move)
    requires AgreementInv(r, log) && r.deferred == [] && r.pending.None?
    ensures AgreementInv(r', log + actions)
  {
    hide ViewOf, MemberAgrees, Agrees, RosterInv, EpochInv, IssuedInv, AllDeferredOk, MemberInv, TopOf, Ordered,
      AllApart, TableInv, Ready, QueueAllGone, WrapAll, NothingFor, AllQuiet, MarksInv, Without;
    var ms := r'.table.members;
    RoomTableIsApart(r);
    RoomTableIsApart(r');
    var k :| 0 < k < |r.table.members| && r.table.members[k].id == move.ids[0] && ms == Without(r.table.members, k);
    assert move.ids == [r.table.members[k].id];
    forall i | 0 <= i < |ms| ensures MemberAgrees(r', log + actions, ms[i]) {
      var x := ms[i];
      var j :| 0 <= j < |r.table.members| && r.table.members[j] == x;
      QuietIsNothing(x.connection, move.before);
      QuietIsNothing(x.connection, move.after);
      NextEpochMember(r, r', log, actions, move.before, move.after, issued, issued, x, i);
      InstalledEpoch(r', log + actions, issued, x);
      OldMemberReady(r, log, issued, x, ViewOf(r.hostKey, x, log + actions), r'.epoch);
      assert log + r.deferred == log;
      assert TopOf(x.connection, 0, log) <= r.sequence;
      DepartSurvivor(r, r', ViewOf(r.hostKey, x, log + actions), move.ids, move.kicked, k, i,
        TopOf(x.connection, 0, log) + 1);
      FoldAgrees(r', log + actions, x);
    }
  }

  lemma {:induction false} MoveAgrees(r: Room, r': Room, log: seq<Action>, actions: seq<Action>, issued: Issued,
    move: Move)
    requires ChannelInv(r, log, issued) && RoomInv(r') && MoveOk(r, r', actions, move)
    requires ChannelInv(r', log + actions, Enrolled(issued, r'.table.members))
    requires r.phase == Destroyed ==> move.Idle?
    requires r.phase != Destroyed && r.pending.None? ==> r.deferred == []
    requires AgreementInv(r, log) && !Restarts(r, r')
    ensures AgreementInv(r', log + actions)
  {
    hide IdleOk, RelayMoveOk, ActivateOk, RoomInv, AgreementInv, ChannelInv, MemberInv, QueueMemberJoined, QueueAllGone,
      AllQuiet, WrapAll;
    match move
    case Idle => IdleAgrees(r, r', log, actions);
    case RelayChat(_, _, _, _) => RelayAgrees(r, r', log, actions, issued, move);
    case ChangePolicy(open, closed) => PolicyAgrees(r, r', log, actions, issued, open, closed);
    case Activate(tail) => ActivateAgrees(r, r', log, actions, issued, tail);
    case Enroll(m) => EnrollAgrees(r, r', log, actions, issued, m);
    case Depart(_, _, _, _) => DepartAgrees(r, r', log, actions, issued, move);
  }
}
