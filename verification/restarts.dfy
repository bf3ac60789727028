// The other half of agreement: a removal that restarts a pending epoch transition leaves an
// announcement behind that the host itself will refuse.
module Restarting {
  import opened RoomTypes
  import opened Members
  import opened Actor
  import opened ActorInvariants
  import opened ActorMoves
  import opened Session
  import opened Views
  import opened Channels
  import opened Agreement

  predicate EventOf(c: ConnectionId, a: Action, epoch: nat) {
    EventFor(c, a) && a.message.epoch == epoch
  }

  // Deferred for connection `c`: an announcement of epoch `epoch`.
  predicate Awaits(c: ConnectionId, deferred: seq<Action>, epoch: nat) {
    exists i :: 0 <= i < |deferred| && EventOf(c, deferred[i], epoch)
  }

  predicate Overtaken(c: ConnectionId, deferred: seq<Action>, epoch: nat) {
    exists i :: 0 <= i < |deferred| && EventFor(c, deferred[i]) && deferred[i].message.epoch < epoch
  }

  // Every pending transition but the first has an announcement for the host.
  predicate HostAwaits(r: Room) {
    && r.table.members != []
    && (r.epoch == 1 ==> |r.table.members| == 1)
    && (r.phase != Destroyed && r.pending.Some? && r.epoch > 1 ==>
        Awaits(r.table.members[0].connection, r.deferred, r.epoch))
  }

  // The host refused an announcement, or is about to.
  predicate HostMisses(r: Room, log: seq<Action>)
    requires r.table.members != []
  {
    var m := r.table.members[0];
    ViewOf(r.hostKey, m, log).refused != [] || Overtaken(m.connection, r.deferred, r.epoch)
  }

  // ---- reading an overtaken announcement -------------------------------------------------

  lemma EventKeepsEpoch(v: View, event: Message)
    requires event.RoomEvent? && v.chat.Some?
    ensures var w := Receive(v, event);
      w.chat.Some? && w.chat.value.epoch == v.chat.value.epoch && |w.refused| >= |v.refused|
      && (v.chat.value.epoch.Some? && event.epoch != v.chat.value.epoch.value.0 ==> w.refused != [])
  {
    hide SnapshotOk, KnownIdentity, WithoutId;
  }

  lemma {:induction false} FlushMisses(c: ConnectionId, v: View, deferred: seq<Action>, epoch: nat)
    requires v.chat.Some? && v.chat.value.epoch.Some? && v.chat.value.epoch.value.0 == epoch
    requires forall i :: 0 <= i < |deferred| ==> deferred[i].SendTo? && deferred[i].message.RoomEvent?
    ensures var w := ReceiveAll(c, v, deferred); w.chat.Some? && w.chat.value.epoch == v.chat.value.epoch
    ensures v.refused != [] || Overtaken(c, deferred, epoch) ==> ReceiveAll(c, v, deferred).refused != []
    decreases |deferred|
  {
    hide Receive;
    if deferred != [] {
      var before := deferred[..|deferred| - 1];
      var a := deferred[|deferred| - 1];
      FlushMisses(c, v, before, epoch);
      var w := ReceiveAll(c, v, before);
      if a.connection == c { EventKeepsEpoch(w, a.message); }
      if Overtaken(c, deferred, epoch) && !(EventFor(c, a) && a.message.epoch < epoch) {
        var i :| 0 <= i < |deferred| && EventFor(c, deferred[i]) && deferred[i].message.epoch < epoch;
        assert before[i] == deferred[i];
      }
    }
  }

  // ---- what is queued for the host -----------------------------------------------------------

  lemma {:induction false} SendAllReaches(members: seq<Member>, skip: Skip, i: nat, event: Message)
    requires i < |members| && !Skipped(skip, members[i]) && event.RoomEvent?
    ensures Awaits(members[i].connection, SendAll(members, skip, event), event.epoch)
    decreases |members|
  {
    var sent := SendAll(members, skip, event);
    var before := members[..|members| - 1];
    if i == |members| - 1 {
      assert EventOf(members[i].connection, sent[|sent| - 1], event.epoch);
    } else {
      assert before[i] == members[i];
      SendAllReaches(before, skip, i, event);
      AwaitsLonger(members[i].connection, [], SendAll(before, skip, event), sent[|SendAll(before, skip, event)|..],
        event.epoch);
      assert sent == [] + SendAll(before, skip, event) + sent[|SendAll(before, skip, event)|..];
    }
  }

  lemma AwaitsLonger(c: ConnectionId, a: seq<Action>, b: seq<Action>, d: seq<Action>, epoch: nat)
    ensures Awaits(c, b, epoch) ==> Awaits(c, a + b + d, epoch)
  {
    if Awaits(c, b, epoch) {
      var i :| 0 <= i < |b| && EventOf(c, b[i], epoch);
      assert (a + b + d)[|a| + i] == b[i];
    }
  }

  lemma OvertakenLonger(c: ConnectionId, a: seq<Action>, b: seq<Action>, epoch: nat, epoch': nat)
    requires Overtaken(c, a, epoch) && epoch <= epoch'
    ensures Overtaken(c, a + b, epoch')
  {
    var i :| 0 <= i < |a| && EventFor(c, a[i]) && a[i].message.epoch < epoch;
    assert (a + b)[i] == a[i];
  }

  lemma AwaitsIsOvertaken(c: ConnectionId, a: seq<Action>, b: seq<Action>, epoch: nat)
    requires Awaits(c, a, epoch)
    ensures Overtaken(c, a + b, epoch + 1)
  {
    var i :| 0 <= i < |a| && EventOf(c, a[i], epoch);
    assert (a + b)[i] == a[i];
  }

  lemma {:induction false} QueueAllGoneAppends(b: Room, ids: seq<MemberId>, kicked: bool)
    ensures |QueueAllGone(b, ids, kicked).deferred| >= |b.deferred|
    ensures QueueAllGone(b, ids, kicked).deferred[..|b.deferred|] == b.deferred
    ensures b.table.members != [] && ids != [] ==>
      Awaits(b.table.members[0].connection, QueueAllGone(b, ids, kicked).deferred, b.epoch)
    decreases |ids|
  {
    hide SendAll, Awaits;
    if ids != [] {
      var before := ids[..|ids| - 1];
      QueueAllGoneAppends(b, before, kicked);
      QueueAllGoneFrame(b, before, kicked);
      var q := QueueAllGone(b, before, kicked);
      var q1 := q.(sequence := q.sequence + 1);
      var event := SignedEvent(q1, GoneBody(ids[|ids| - 1], kicked));
      var sent := SendAll(q1.table.members, Nobody, event);
      assert QueueAllGone(b, ids, kicked).deferred == q.deferred + sent == q.deferred + sent + [];
      if b.table.members != [] {
        SendAllReaches(b.table.members, Nobody, 0, event);
        AwaitsLonger(b.table.members[0].connection, q.deferred, sent, [], b.epoch);
      }
    }
  }

  // ---- the host is always the same member -----------------------------------------------------

  lemma HostStays(before: seq<Member>, after: seq<Member>, ids: seq<MemberId>)
    requires before != [] && after != [] && before[0].id == HOST_ID && after[0].id == HOST_ID
    requires AllApart(before) && Survivors(before, after, ids)
    ensures after[0] == before[0]
  {
    var k :| 0 <= k < |before| && before[k] == after[0];
    SameIdSameMember(before, 0, k);
  }

  lemma SameHost(r: Room, r': Room)
    requires SameRoom(r, r') && r.table.members != []
    ensures r'.table.members != [] && |r'.table.members| == |r.table.members|
    ensures Plain(r'.table.members[0]) == Plain(r.table.members[0])
  {
    SameMembers(r, r');
  }

  // ---- every move ---------------------------------------------------------------------------------

  lemma HostConnectionOf(r: Room)
    requires RoomInv(r)
    ensures r.table.members != [] && r.table.members[0].connection == r.hostConnection &&
      r.table.members[0].id == HOST_ID
  {
  }

  lemma SameRoomAwaits(r: Room, r': Room)
    requires HostAwaits(r) && SameRoom(r, r') && r'.deferred == r.deferred
    requires r'.phase != Destroyed && r'.pending.Some? ==> r.phase != Destroyed && r.pending.Some?
    ensures HostAwaits(r')
  {
    SameHost(r, r');
  }

  lemma EnrollAwaits(r: Room, r': Room, actions: seq<Action>, m: Member)
    requires RoomInv(r) && RoomInv(r') && EnrollOk(r, r', actions, m)
    ensures HostAwaits(r')
  {
    hide RosterInv, EpochInv, MarksInv, SendAll, Awaits, WrapAll;
    HostConnectionOf(r);
    HostConnectionOf(r');
    var b := Begun(r, r');
    var b1 := b.(sequence := b.sequence + 1);
    var event := SignedEvent(b1, Joined(m.id, m.nickname, m.ed25519));
    var sent := SendAll(b1.table.members, TheMember(m.id), event);
    assert r'.deferred == b.deferred + sent + r'.deferred[|b.deferred| + |sent|..];
    NewcomerIsNotHost(r', |r.table.members|);
    SendAllReaches(b1.table.members, TheMember(m.id), 0, event);
    AwaitsLonger(r'.table.members[0].connection, b.deferred, sent, r'.deferred[|b.deferred| + |sent|..], r'.epoch);
  }

  lemma DepartAwaits(r: Room, r': Room, actions: seq<Action>, move: Move)
    requires RoomInv(r) && RoomInv(r') && move.Depart? && DepartOk(r, r', actions, move)
    ensures HostAwaits(r')
  {
    hide RosterInv, EpochInv, MarksInv, QueueAllGone, Awaits, WrapAll, AllQuiet, Survivors;
    HostConnectionOf(r');
    QueueAllGoneAppends(Begun(r, r'), move.ids, move.kicked);
  }

  lemma MoveAwaits(r: Room, r': Room, log: seq<Action>, actions: seq<Action>, move: Move)
    requires RoomInv(r) && RoomInv(r') && MoveOk(r, r', actions, move) && HostAwaits(r)
    requires r.phase == Destroyed ==> r'.phase == Destroyed
    ensures HostAwaits(r')
  {
    hide RosterInv, MarksInv, QueueMemberJoined, QueueAllGone, AllQuiet, WrapAll, SendAll, Awaits, Survivors, NextEpoch;
    match move
    case Idle => SameRoomAwaits(r, r');
    case RelayChat(_, _, _, _) => SameRoomAwaits(r, r');
    case ChangePolicy(open, closed) => SameRoomAwaits(r, r');
    case Activate(tail) => SameHost(r, r');
    case Enroll(m) => EnrollAwaits(r, r', actions, m);
    case Depart(_, _, _, _) => DepartAwaits(r, r', actions, move);
  }

  lemma HostMissesFrame(r: Room, r': Room, log: seq<Action>, log': seq<Action>, v': View)
    requires r.table.members != [] && r'.table.members != [] && Plain(r'.table.members[0]) == Plain(r.table.members[0])
    requires r'.hostKey == r.hostKey && r'.deferred == r.deferred && r'.epoch == r.epoch
    requires v' == ViewOf(r.hostKey, r.table.members[0], log') &&
      v'.refused == ViewOf(r.hostKey, r.table.members[0], log).refused
    requires HostMisses(r, log)
    ensures HostMisses(r', log')
  {
    hide ViewOf, Overtaken;
    SameView(r.hostKey, r.table.members[0], r'.table.members[0], log');
  }

  lemma IdleMisses(r: Room, r': Room, log: seq<Action>, actions: seq<Action>)
    requires r.table.members != [] && IdleOk(r, r', actions) && HostMisses(r, log)
    ensures r'.table.members != [] && HostMisses(r', log + actions)
  {
    hide ViewOf, AllQuiet, NothingFor, HostMisses;
    var m := r.table.members[0];
    SameHost(r, r');
    QuietIsNothing(m.connection, actions);
    ViewAfter(r.hostKey, m, log, actions);
    ReceiveNothing(m.connection, ViewOf(r.hostKey, m, log), actions);
    HostMissesFrame(r, r', log, log + actions, ViewOf(r.hostKey, m, log));
  }

  lemma RelayMisses(r: Room, r': Room, log: seq<Action>, actions: seq<Action>, issued: Issued, move: Move)
    requires ChannelInv(r, log, issued) && RoomInv(r') && move.RelayChat? && RelayMoveOk(r, r', actions, move)
    requires r.table.members != [] && HostMisses(r, log)
    ensures r'.table.members != [] && HostMisses(r', log + actions)
  {
    hide ViewOf, HostMisses, RosterInv, EpochInv, MarksInv, MemberInv, Authored, AllDeferredOk, ChannelsOrdered,
      AllApart, SendAll, IssuedInv, SameRoom, TableInv;
    RoomTableIsApart(r');
    SameHost(r, r');
    SameRoomFields(r, r');
    var k :| 0 <= k < |r.table.members| &&
      Authored(r.table.members[k], move.c, CurrentKey(r), move.kind, move.envelope, move.plaintext);
    RelayMember(r, r', log, actions, issued, move, 0, k);
    HostMissesFrame(r, r', log, log + actions, ViewOf(r.hostKey, r.table.members[0], log + actions));
  }

  lemma SameRoomFields(r: Room, r': Room)
    requires SameRoom(r, r')
    ensures r'.hostKey == r.hostKey && r'.epoch == r.epoch
  {
  }

  lemma PolicyMisses(r: Room, r': Room, log: seq<Action>, actions: seq<Action>, issued: Issued, open: bool,
    closed: seq<Action>)
    requires ChannelInv(r, log, issued) && RoomInv(r') && PolicyOk(r, r', actions, open, closed) && r.deferred == []
    requires r.table.members != [] && HostMisses(r, log)
    ensures r'.table.members != [] && HostMisses(r', log + actions)
  {
    hide ViewOf, HostMisses, RosterInv, EpochInv, MarksInv, MemberInv, AllDeferredOk, AllApart, SendAll, IssuedInv,
      SameRoom, TableInv, Ordered, TopOf, AllQuiet;
    RoomTableIsApart(r');
    SameHost(r, r');
    SameRoomFields(r, r');
    assert log + r.deferred == log;
    PolicyMember(r, r', log, actions, issued, open, closed, 0);
    HostMissesFrame(r, r', log, log + actions, ViewOf(r.hostKey, r.table.members[0], log + actions));
  }

  lemma ActivateMisses(r: Room, r': Room, log: seq<Action>, actions: seq<Action>, issued: Issued, tail: seq<Action>)
    requires ChannelInv(r, log, issued) && RoomInv(r') && ActivateOk(r, r', actions, tail)
    requires r.table.members != [] && HostMisses(r, log)
    ensures r'.table.members != [] && HostMisses(r', log + actions)
  {
    hide ViewOf, RosterInv, EpochInv, MarksInv, MemberInv, AllDeferredOk, IssuedInv, SameRoom, Ordered, TopOf, AllQuiet,
      Overtaken;
    var m := r.table.members[0];
    SameHost(r, r');
    SameRoomFields(r, r');
    assert Ordered(m.connection, 0, log + r.deferred);
    ActivateMember(r, r', log, actions, issued, tail, 0);
    DeferredAreEvents(r.deferred, r.hostKey, r.epoch, r.sequence, issued);
    InstalledEpoch(r, log, issued, m);
    FlushMisses(m.connection, ViewOf(r.hostKey, m, log), r.deferred, r.epoch);
    SameView(r.hostKey, m, r'.table.members[0], log + actions);
  }

  // Under the next epoch an announcement still deferred is overtaken.
  lemma NextEpochMisses(r: Room, r': Room, log: seq<Action>, log': seq<Action>)
    requires r.table.members != [] && r'.table.members != [] && r'.table.members[0] == r.table.members[0]
    requires r'.hostKey == r.hostKey && r'.epoch == r.epoch + 1
    requires |r'.deferred| >= |r.deferred| && r'.deferred[..|r.deferred|] == r.deferred
    requires ViewOf(r.hostKey, r.table.members[0], log').refused == ViewOf(r.hostKey, r.table.members[0], log).refused
    requires HostMisses(r, log) || Awaits(r.table.members[0].connection, r.deferred, r.epoch)
    ensures HostMisses(r', log')
  {
    hide ViewOf, Overtaken, Awaits;
    var c := r.table.members[0].connection;
    assert r'.deferred == r.deferred + r'.deferred[|r.deferred|..];
    if Overtaken(c, r.deferred, r.epoch) {
      OvertakenLonger(c, r.deferred, r'.deferred[|r.deferred|..], r.epoch, r'.epoch);
    }
    if Awaits(c, r.deferred, r.epoch) { AwaitsIsOvertaken(c, r.deferred, r'.deferred[|r.deferred|..], r.epoch); }
  }

  lemma EnrollMisses(r: Room, r': Room, log: seq<Action>, actions: seq<Action>, issued: Issued, m: Member)
    requires ChannelInv(r, log, issued) && RoomInv(r') && EnrollOk(r, r', actions, m)
    requires r.table.members != [] && HostMisses(r, log)
    ensures r'.table.members != [] && HostMisses(r', log + actions)
  {
    hide ViewOf, HostMisses, RosterInv, EpochInv, IssuedInv, AllDeferredOk, MemberInv, TopOf, Ordered, AllApart,
      TableInv, WrapAll, NothingFor, Enrolled, MarksInv, SendAll, ChannelsOrdered;
    var ms := r'.table.members;
    var x := r.table.members[0];
    var before := [SendTo(m.connection, JoinAccepted(m.id)), Notify(MemberJoined(m.id, m.nickname))];
    RoomTableIsApart(r');
    assert ms[0] == x && ms[|r.table.members|] == m;
    OthersApart(ms, 0, |r.table.members|);
    AdmissionIsNotFor(x.connection, m);
    EnrolledGrows(issued, ms);
    assert actions == before + WrapAll(ms, r'.epoch, EpochKey(r.nextKey)) + [];
    NextEpochMember(r, r', log, actions, before, [], issued, Enrolled(issued, ms), x, 0);
    NextEpochMisses(r, r', log, log + actions);
  }

  lemma DepartMisses(r: Room, r': Room, log: seq<Action>, actions: seq<Action>, issued: Issued, move: Move)
    requires ChannelInv(r, log, issued) && RoomInv(r') && move.Depart? && DepartOk(r, r', actions, move)
    requires r.table.members != []
    requires HostMisses(r, log) || Awaits(r.table.members[0].connection, r.deferred, r.epoch)
    ensures r'.table.members != [] && HostMisses(r', log + actions)
  {
    hide ViewOf, HostMisses, RosterInv, EpochInv, IssuedInv, AllDeferredOk, MemberInv, TopOf, Ordered, AllApart,
      TableInv, WrapAll, NothingFor, MarksInv, SendAll, ChannelsOrdered, Survivors, QueueAllGone, Awaits, AllQuiet;
    var x := r.table.members[0];
    RoomTableIsApart(r);
    RoomTableIsApart(r');
    HostConnectionOf(r);
    HostConnectionOf(r');
    HostStays(r.table.members, r'.table.members, move.ids);
    QuietIsNothing(x.connection, move.before);
    QuietIsNothing(x.connection, move.after);
    SameIssued(issued);
    NextEpochMember(r, r', log, actions, move.before, move.after, issued, issued, x, 0);
    QueueAllGoneAppends(Begun(r, r'), move.ids, move.kicked);
    NextEpochMisses(r, r', log, log + actions);
  }

  lemma SameIssued(issued: Issued)
    ensures IssuedGrows(issued, issued)
  {
  }

  // A restart needs somebody to remove, so it cannot happen before the first admission.
  lemma RestartAwaits(r: Room, r': Room, actions: seq<Action>, move: Move)
    requires RoomInv(r) && HostAwaits(r) && move.Depart? && DepartOk(r, r', actions, move)
    requires r.phase != Destroyed && r.pending.Some?
    ensures Awaits(r.table.members[0].connection, r.deferred, r.epoch)
  {
    hide RosterInv, MarksInv, EpochInv, NextEpoch, QueueAllGone, Awaits, AllQuiet, WrapAll, OneLeft, Survivors;
    HostConnectionOf(r);
    if r.epoch == 1 { OnlyHostLeaves(r.table.members, r'.table.members, move.ids); }
  }

  lemma OnlyHostLeaves(before: seq<Member>, after: seq<Member>, ids: seq<MemberId>)
    requires |before| == 1 && before[0].id == HOST_ID && ids != [] && Survivors(before, after, ids)
    ensures HOST_ID in ids
  {
    assert ids[0] in ids && ids[0] in IdSet(before);
  }

  lemma {:induction false} MoveMisses(r: Room, r': Room, log: seq<Action>, actions: seq<Action>, issued: Issued,
    move: Move)
    requires ChannelInv(r, log, issued) && RoomInv(r') && MoveOk(r, r', actions, move) && HostAwaits(r)
    requires r.phase == Destroyed ==> move.Idle?
    requires r.phase != Destroyed && r.pending.None? ==> r.deferred == []
    requires HostMisses(r, log) || Restarts(r, r')
    ensures r'.table.members != [] && HostMisses(r', log + actions)
  {
    hide RoomInv, ChannelInv, AllQuiet, QueueMemberJoined, QueueAllGone, WrapAll, SendAll, Awaits, HostMisses,
      Survivors;
    match move
    case Idle => IdleMisses(r, r', log, actions);
    case RelayChat(_, _, _, _) => RelayMisses(r, r', log, actions, issued, move);
    case ChangePolicy(open, closed) => PolicyMisses(r, r', log, actions, issued, open, closed);
    case Activate(tail) => ActivateMisses(r, r', log, actions, issued, tail);
    case Enroll(m) => EnrollMisses(r, r', log, actions, issued, m);
    case Depart(_, _, _, _) =>
      ChannelRoom(r, log, issued);
      if r.pending.Some? { RestartAwaits(r, r', actions, move); }
      DepartMisses(r, r', log, actions, issued, move);
  }

  lemma ChannelRoom(r: Room, log: seq<Action>, issued: Issued)
    requires ChannelInv(r, log, issued)
    ensures RoomInv(r)
  {
  }
}
