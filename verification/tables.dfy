// When every member lists the host's table, exactly: over all runs, restarts included.
module Tables {
  import opened RoomTypes
  import opened Members
  import opened Actor
  import opened ActorInvariants
  import opened ActorMoves
  import opened Session
  import opened Views
  import opened Channels
  import opened Agreement
  import opened Restarting
  import opened Runs
  import opened MemberViews
  import opened KeySeparation
  import opened Listed

  // ---- the invariant ---------------------------------------------------------------------

  function PastOf(s: System): Past { Past(s.admitted, s.left, s.activated) }

  // The view of the member at index `i` once it has read what is deferred for it.
  function FlushedAt(s: System, i: nat): View
    requires i < |s.room.table.members|
  {
    ReceiveAll(s.room.table.members[i].connection, ViewAt(s, i), s.room.deferred)
  }

  // The ids a view lists are `ListedIds`; `v` is the view now and `w` after the flush.
  ghost predicate RowOk(p: Past, table: set<MemberId>, epoch: nat, pending: bool, x: Member, v: View, w: View) {
    && v.chat.Some? && w.chat.Some?
    && WellListed(v.chat.value.members, p.admitted) && WellListed(w.chat.value.members, p.admitted)
    && ListOk(p, table, epoch, pending, x, ListedIds(v.chat.value.members))
    && FlushOk(p, table, epoch, pending, x, ListedIds(v.chat.value.members), ListedIds(w.chat.value.members))
  }

  ghost predicate RowInv(s: System, i: nat)
    requires i < |s.room.table.members|
  {
    RowOk(PastOf(s), IdSet(s.room.table.members), s.room.epoch, s.room.pending.Some?, s.room.table.members[i],
      ViewAt(s, i), FlushedAt(s, i))
  }

  ghost predicate TablesInv(s: System) {
    s.room.phase != Destroyed ==>
      && PastOk(PastOf(s), IdSet(s.room.table.members), s.room.epoch, s.room.pending.Some?)
      && forall i :: 0 <= i < |s.room.table.members| ==> RowInv(s, i)
  }

  // ---- what lists look like -------------------------------------------------------------------

  predicate SameList(v: View, w: View) {
    v.chat.Some? && w.chat.Some? && Cores(v.chat.value.members) == Cores(w.chat.value.members)
  }

  lemma RowOfSameLists(p: Past, table: set<MemberId>, epoch: nat, pending: bool, x: Member, x': Member, v: View,
    w: View, v': View, w': View)
    requires RowOk(p, table, epoch, pending, x, v, w) && SameList(v, v') && SameList(w, w') && Plain(x') == Plain(x)
    ensures RowOk(p, table, epoch, pending, x', v', w')
  {
    hide Cores, WellListed, ListedIds, Ideal, Leaving, Clashes;
    SameCoresListed(v.chat.value.members, v'.chat.value.members, p.admitted);
    SameCoresListed(w.chat.value.members, w'.chat.value.members, p.admitted);
    assert Ideal(p, x') == Ideal(p, x) by { SameIdeal(p, x, x'); }
  }

  lemma SameIdeal(p: Past, x: Member, x': Member)
    requires x'.joinedEpoch == x.joinedEpoch
    ensures Ideal(p, x') == Ideal(p, x)
  {
    assert forall y :: y in p.admitted ==> Should(p, x, y) == Should(p, x', y);
  }

  // ---- moves within an epoch ---------------------------------------------------------------------

  lemma IdleLists(r: Room, r': Room, log: seq<Action>, actions: seq<Action>, i: nat)
    requires IdleOk(r, r', actions) && i < |r.table.members| && |r'.table.members| == |r.table.members|
    ensures ViewOf(r'.hostKey, r'.table.members[i], log + actions) == ViewOf(r.hostKey, r.table.members[i], log)
  {
    hide ViewOf, AllQuiet, NothingFor, SameRoom;
    var m := r.table.members[i];
    QuietIsNothing(m.connection, actions);
    ViewAfter(r.hostKey, m, log, actions);
    ReceiveNothing(m.connection, ViewOf(r.hostKey, m, log), actions);
    SameMember(r, r', i);
    SameRoomFields(r, r');
    SameView(r.hostKey, m, r'.table.members[i], log + actions);
  }

  lemma SameMember(r: Room, r': Room, i: nat)
    requires SameRoom(r, r') && i < |r.table.members|
    ensures |r'.table.members| == |r.table.members|
    ensures Plain(r'.table.members[i]) == Plain(r.table.members[i])
    ensures r'.table.members[i].connection == r.table.members[i].connection
  {
    SameMembers(r, r');
  }

  lemma RelayLists(r: Room, r': Room, log: seq<Action>, actions: seq<Action>, issued: Issued, move: Move, i: nat)
    requires ChannelInv(r, log, issued) && RoomInv(r') && move.RelayChat? && RelayMoveOk(r, r', actions, move)
    requires i < |r.table.members| && |r'.table.members| == |r.table.members|
    ensures CoreEqual(ViewOf(r.hostKey, r.table.members[i], log),
      ViewOf(r'.hostKey, r'.table.members[i], log + actions))
  {
    hide ViewOf, RosterInv, EpochInv, MarksInv, MemberInv, Authored, AllDeferredOk, ChannelsOrdered, AllApart, SendAll,
      IssuedInv, SameRoom, TableInv, CoreEqual;
    RoomTableIsApart(r');
    SameMember(r, r', i);
    SameRoomFields(r, r');
    var k :| 0 <= k < |r.table.members| &&
      Authored(r.table.members[k], move.c, CurrentKey(r), move.kind, move.envelope, move.plaintext);
    RelayMember(r, r', log, actions, issued, move, i, k);
    SameView(r.hostKey, r.table.members[i], r'.table.members[i], log + actions);
  }

  lemma PolicyLists(r: Room, r': Room, log: seq<Action>, actions: seq<Action>, issued: Issued, open: bool,
    closed: seq<Action>, i: nat)
    requires ChannelInv(r, log, issued) && RoomInv(r') && PolicyOk(r, r', actions, open, closed) && r.deferred == []
    requires i < |r.table.members| && |r'.table.members| == |r.table.members|
    ensures CoreUnchanged(ViewOf(r.hostKey, r.table.members[i], log),
      ViewOf(r'.hostKey, r'.table.members[i], log + actions))
  {
    hide ViewOf, RosterInv, EpochInv, MarksInv, MemberInv, AllDeferredOk, AllApart, SendAll, IssuedInv, SameRoom,
      TableInv, Ordered, TopOf, AllQuiet, CoreUnchanged;
    RoomTableIsApart(r');
    SameMember(r, r', i);
    SameRoomFields(r, r');
    assert log + r.deferred == log;
    PolicyMember(r, r', log, actions, issued, open, closed, i);
    SameView(r.hostKey, r.table.members[i], r'.table.members[i], log + actions);
  }

  lemma ActivateLists(r: Room, r': Room, log: seq<Action>, actions: seq<Action>, issued: Issued, tail: seq<Action>,
    i: nat)
    requires ChannelInv(r, log, issued) && RoomInv(r') && ActivateOk(r, r', actions, tail)
    requires i < |r.table.members| && |r'.table.members| == |r.table.members|
    ensures ViewOf(r'.hostKey, r'.table.members[i], log + actions) ==
      ReceiveAll(r.table.members[i].connection, ViewOf(r.hostKey, r.table.members[i], log), r.deferred)
  {
    hide ViewOf, RosterInv, EpochInv, MarksInv, MemberInv, AllDeferredOk, IssuedInv, SameRoom, Ordered, TopOf, AllQuiet;
    SameMember(r, r', i);
    SameRoomFields(r, r');
    assert Ordered(r.table.members[i].connection, 0, log + r.deferred);
    ActivateMember(r, r', log, actions, issued, tail, i);
    SameView(r.hostKey, r.table.members[i], r'.table.members[i], log + actions);
  }

  // ---- announcements of an epoch that is over ---------------------------------------------------------

  lemma StaleIsRefused(v: View, event: Message)
    requires event.RoomEvent? && v.chat.Some? && v.chat.value.epoch.Some? && event.epoch != v.chat.value.epoch.value.0
    ensures Receive(v, event).chat == v.chat
  {
    hide SnapshotOk, KnownIdentity, WithoutId;
  }

  lemma {:induction false} StaleFlush(c: ConnectionId, v: View, deferred: seq<Action>, epoch: nat)
    requires v.chat.Some? && v.chat.value.epoch.Some? && v.chat.value.epoch.value.0 == epoch
    requires forall i :: 0 <= i < |deferred| ==>
      deferred[i].SendTo? && deferred[i].message.RoomEvent? && deferred[i].message.epoch < epoch
    ensures ReceiveAll(c, v, deferred).chat == v.chat
    decreases |deferred|
  {
    hide Receive;
    if deferred != [] {
      var before := deferred[..|deferred| - 1];
      var a := deferred[|deferred| - 1];
      StaleFlush(c, v, before, epoch);
      if a.connection == c { StaleIsRefused(ReceiveAll(c, v, before), a.message); }
    }
  }

  // ---- a departure ---------------------------------------------------------------------------------------

  // A session ready for the announcements of its epoch.
  predicate Listening(s: Chat, hostKey: PublicKey, epoch: nat, bound: nat) {
    s.hostKey == hostKey && s.epoch.Some? && s.epoch.value.0 == epoch && LastBelow(s, bound)
  }

  function WithoutAll(views: seq<MemberView>, ids: seq<MemberId>): seq<MemberView>
    decreases |ids|
  {
    if ids == [] then views else WithoutId(WithoutAll(views, ids[..|ids| - 1]), ids[|ids| - 1])
  }

  lemma {:induction false} WithoutAllListed(views: seq<MemberView>, ids: seq<MemberId>, admitted: map<MemberId, Member>)
    requires WellListed(views, admitted)
    ensures WellListed(WithoutAll(views, ids), admitted)
    ensures ListedIds(WithoutAll(views, ids)) == ListedIds(views) - set id | id in ids
    decreases |ids|
  {
    hide WellListed, ListedIds, WithoutId;
    if ids != [] {
      var before := ids[..|ids| - 1];
      var last := ids[|ids| - 1];
      assert ids == before + [last];
      WithoutAllListed(views, before, admitted);
      WithoutIdListed(WithoutAll(views, before), last, admitted);
    }
  }

  lemma GoneIsTaken(v: View, event: Message, id: MemberId, kicked: bool, epoch: nat)
    requires event.RoomEvent? && v.chat.Some? && SignedBy(v.chat.value.hostKey, event) &&
      event.body == GoneBody(id, kicked)
    requires event.epoch == epoch && Listening(v.chat.value, v.chat.value.hostKey, epoch, event.sequence)
    ensures var w := Receive(v, event);
      && w.chat.Some? && w.chat.value.members == WithoutId(v.chat.value.members, id)
      && Listening(w.chat.value, v.chat.value.hostKey, epoch, event.sequence + 1)
  {
    hide WithoutId;
  }

  // Every member, whatever it lists, takes the departed off its list.
  lemma {:induction false} GoneFlush(b: Room, ids: seq<MemberId>, kicked: bool, i: nat, v: View)
    requires AllApart(b.table.members) && i < |b.table.members|
    requires var u := ReceiveAll(b.table.members[i].connection, v, b.deferred);
      u.chat.Some? && Listening(u.chat.value, b.hostKey, b.epoch, b.sequence + 1)
    ensures var c := b.table.members[i].connection;
      var u := ReceiveAll(c, v, b.deferred);
      var q := QueueAllGone(b, ids, kicked);
      var w := ReceiveAll(c, v, q.deferred);
      && w.chat.Some? && w.chat.value.members == WithoutAll(u.chat.value.members, ids)
      && Listening(w.chat.value, b.hostKey, b.epoch, q.sequence + 1)
    decreases |ids|
  {
    hide AllApart, SendAll, Receive, ReceiveAll, WithoutId, Listening;
    if ids != [] {
      var before := ids[..|ids| - 1];
      var last := ids[|ids| - 1];
      GoneFlush(b, before, kicked, i, v);
      QueueAllGoneFrame(b, before, kicked);
      var q := QueueAllGone(b, before, kicked);
      var q1 := q.(sequence := q.sequence + 1);
      var event := SignedEvent(q1, GoneBody(last, kicked));
      var c := b.table.members[i].connection;
      var u := ReceiveAll(c, v, q.deferred);
      ReceiveAllConcat(c, v, q.deferred, SendAll(q1.table.members, Nobody, event));
      ReceiveSendAll(i, u, b.table.members, Nobody, event);
      ListeningKey(u.chat.value, b.hostKey, b.epoch, q.sequence + 1);
      GoneIsTaken(u, event, last, kicked, b.epoch);
    }
  }

  lemma ListeningKey(s: Chat, hostKey: PublicKey, epoch: nat, bound: nat)
    requires Listening(s, hostKey, epoch, bound)
    ensures s.hostKey == hostKey
  {
  }

  // ---- an admission -----------------------------------------------------------------------------------------

  function NewView(m: Member): MemberView { MemberView(m.id, m.nickname, DEFAULT_COLOR, false, m.ed25519) }

  lemma JoinedIsTaken(v: View, event: Message, m: Member, epoch: nat)
    requires event.RoomEvent? && v.chat.Some? && SignedBy(v.chat.value.hostKey, event)
    requires event.body == Joined(m.id, m.nickname, m.ed25519) && m.nickname.valid && m.id != HOST_ID
    requires event.epoch == epoch && Listening(v.chat.value, v.chat.value.hostKey, epoch, event.sequence)
    ensures var w := Receive(v, event);
      && w.chat.Some?
      && w.chat.value.members ==
        if KnownIdentity(v.chat.value.members, m.id, m.nickname, m.ed25519) then v.chat.value.members
        else v.chat.value.members + [NewView(m)]
  {
    hide KnownIdentity;
  }

  // A member that was there before reads one announcement about the newcomer.
  lemma JoinedFlush(r: Room, r': Room, v: View, m: Member, i: nat)
    requires i < |r.table.members| && r'.table.members == r.table.members + [m] && AllApart(r'.table.members)
    requires r'.hostKey == r.hostKey && r' == QueueMemberJoined(Begun(r, r'), m) && r.deferred == []
    requires m.nickname.valid && m.id != HOST_ID
    requires v.chat.Some? && Listening(v.chat.value, r.hostKey, r'.epoch, r.sequence + 1)
    ensures var w := ReceiveAll(r.table.members[i].connection, v, r'.deferred);
      && w.chat.Some?
      && w.chat.value.members ==
        if KnownIdentity(v.chat.value.members, m.id, m.nickname, m.ed25519) then v.chat.value.members
        else v.chat.value.members + [NewView(m)]
  {
    hide AllApart, SendAll, Receive, ReceiveAll, NothingFor, KnownIdentity, Cores;
    var c := r.table.members[i].connection;
    var event := SignedEvent(r'.(sequence := r.sequence + 2), Joined(m.id, m.nickname, m.ed25519));
    var snapshot := SendTo(m.connection, SignedEvent(r', Snapshot(SnapshotOf(r'.table.members))));
    var joined := SendAll(r'.table.members, TheMember(m.id), event);
    assert r'.deferred == joined + [snapshot];
    assert r'.table.members[i] == r.table.members[i];
    OthersApart(r'.table.members, i, |r.table.members|);
    ApartIds(r'.table.members, i, |r.table.members|);
    ReceiveAllConcat(c, v, joined, [snapshot]);
    ReceiveSendAll(i, v, r'.table.members, TheMember(m.id), event);
    NotForMe(c, snapshot);
    ReceiveNothing(c, Receive(v, event), [snapshot]);
    JoinedIsTaken(v, event, m, r'.epoch);
  }

  lemma GrownListed(views: seq<MemberView>, admitted: map<MemberId, Member>, m: Member)
    requires WellListed(views, admitted) && m.id !in admitted
    ensures WellListed(views, admitted[m.id := m])
  {
  }

  lemma ListedAreAdmitted(views: seq<MemberView>, admitted: map<MemberId, Member>)
    requires WellListed(views, admitted)
    ensures forall id :: id in ListedIds(views) ==> id in admitted
  {
  }

  lemma KnownIsClash(views: seq<MemberView>, p: Past, m: Member)
    requires WellListed(views, p.admitted) && m.id in p.admitted && p.admitted[m.id] == m
    requires KnownIdentity(views, m.id, m.nickname, m.ed25519)
    ensures Clashes(p, ListedIds(views), m.id)
  {
    var k :| 0 <= k < |views| &&
      (views[k].id == m.id || views[k].nickname == m.nickname || views[k].ed25519 == m.ed25519);
    assert CoreOfView(views[k]) == CoreOfMember(p.admitted[views[k].id]);
    assert views[k].id in ListedIds(views);
    assert views[k].id == m.id || Twins(p, views[k].id, m.id);
  }

  lemma OnlyNewcomer(p: Past, table: set<MemberId>, epoch: nat, next: nat, m: Member)
    requires PastOk(p, table, epoch, false) && m.id !in p.admitted && m.joinedEpoch == next == epoch + 1 &&
      m.id != HOST_ID
    ensures forall n :: Newcomer(Admitted(p, m), next, n) <==> n == m.id
  {
    forall n ensures Newcomer(Admitted(p, m), next, n) <==> n == m.id {
      if n in p.admitted { assert p.Joined(n) <= epoch; }
    }
  }

  lemma JoinedRow(p: Past, table: set<MemberId>, epoch: nat, m: Member, x: Member, u: View, v: View, w: View)
    requires PastOk(p, table, epoch, false) && m.id !in p.admitted && m.joinedEpoch == epoch + 1 && m.id != HOST_ID
    requires !m.isHost && forall id :: id in p.admitted ==> id < m.id
    requires RowOk(p, table, epoch, false, x, u, u) && x.joinedEpoch <= epoch && x.id != m.id
    requires v.chat.Some? && v.chat.value.members == u.chat.value.members
    requires w.chat.Some? && w.chat.value.members ==
      if KnownIdentity(v.chat.value.members, m.id, m.nickname, m.ed25519) then v.chat.value.members
      else v.chat.value.members + [NewView(m)]
    ensures RowOk(Admitted(p, m), table + {m.id}, epoch + 1, true, x, v, w)
  {
    hide KnownIdentity, ListOk, PastOk, WellListed, ListedIds, Clashes;
    var views := v.chat.value.members;
    var q := Admitted(p, m);
    GrownListed(views, p.admitted, m);
    ListedAreAdmitted(views, p.admitted);
    AdmittedList(p, table, epoch, m, x, ListedIds(views));
    OnlyNewcomer(p, table, epoch, epoch + 1, m);
    assert Newcomer(q, epoch + 1, m.id);
    if KnownIdentity(views, m.id, m.nickname, m.ed25519) { KnownIsClash(views, q, m); }
    else { AppendListed(views, NewView(m), q.admitted); }
  }

  lemma TableListed(members: seq<Member>, nextId: MemberId, epoch: nat, admitted: map<MemberId, Member>,
    views: seq<MemberView>)
    requires AllApart(members) && AdmittedInv(members, nextId, epoch, admitted) && Cores(views) == MemberCores(members)
    ensures WellListed(views, admitted) && ListedIds(views) == IdSet(members)
  {
    assert |views| == |Cores(views)| == |MemberCores(members)| == |members|;
    forall i | 0 <= i < |views|
      ensures CoreOfView(views[i]) == CoreOfMember(members[i]) && views[i].id == members[i].id {
      assert CoreOfView(views[i]) == Cores(views)[i] == MemberCores(members)[i] == CoreOfMember(members[i]);
    }
    assert forall i :: 0 <= i < |views| ==> CoreOfMember(admitted[members[i].id]) == CoreOfMember(members[i]);
  }

  lemma NewRow(p: Past, table: set<MemberId>, epoch: nat, m: Member, v: View, w: View)
    requires PastOk(p, table, epoch, false) && m.id !in p.admitted && m.joinedEpoch == epoch + 1 && m.id != HOST_ID
    requires v.chat.Some? && v.chat.value.members == []
    requires w.chat.Some? && WellListed(w.chat.value.members, Admitted(p, m).admitted)
    requires ListedIds(w.chat.value.members) == table + {m.id}
    ensures RowOk(Admitted(p, m), table + {m.id}, epoch + 1, true, m, v, w)
  {
    hide PastOk, ListOk, Clashes;
    NewList(p, table, epoch, m);
    OnlyNewcomer(p, table, epoch, epoch + 1, m);
    assert Newcomer(Admitted(p, m), epoch + 1, m.id);
    assert ListedIds(v.chat.value.members) == {};
  }

  // ---- the history of a step -----------------------------------------------------------------------------------

  lemma IdOfMember(members: seq<Member>, id: MemberId) returns (i: nat)
    requires id in IdSet(members)
    ensures i < |members| && members[i].id == id
  {
    i :| 0 <= i < |members| && members[i].id == id;
  }

  lemma NoTwinsInTable(members: seq<Member>, nextId: MemberId, epoch: nat, p: Past)
    requires AllApart(members) && AdmittedInv(members, nextId, epoch, p.admitted)
    ensures NoTwins(p, IdSet(members))
  {
    forall y, z | y in IdSet(members) && z in IdSet(members) && y in p.admitted && z in p.admitted && y != z
      ensures !Twins(p, y, z) {
      var i := IdOfMember(members, y);
      var j := IdOfMember(members, z);
      assert Apart(members[if i < j then i else j], members[if i < j then j else i]);
    }
  }

  lemma PastWithin(s: System, s': System, input: Input)
    requires s' == Step(s, input) && SameRoom(s.room, s'.room) && s.room.table.members != []
    requires AdmittedInv(s.room.table.members, s.room.table.nextId, s.room.epoch, s.admitted)
    ensures IdSet(s'.room.table.members) == IdSet(s.room.table.members)
    ensures PastOf(s') == if Activates(s.room, s'.room) then Activated(PastOf(s), s.room.epoch) else PastOf(s)
  {
    hide Handle, IdSet, RelayedIn, Acknowledged, Enrolled, Roster, MarksGrow;
    SameMembers(s.room, s'.room);
    var last := |s.room.table.members| - 1;
    assert s'.room.table.members[last].id == s.room.table.members[last].id;
    assert LeftBetween(s.room.table.members, s'.room.table.members, s'.room.epoch) == map[];
    assert s.left + map[] == s.left;
  }

  lemma PastEnroll(s: System, s': System, input: Input, actions: seq<Action>, m: Member)
    requires s' == Step(s, input) && EnrollOk(s.room, s'.room, actions, m) && m.id !in s.admitted
    ensures PastOf(s') == Admitted(PastOf(s), m)
    ensures IdSet(s'.room.table.members) == IdSet(s.room.table.members) + {m.id}
  {
    hide Handle, RelayedIn, Acknowledged, Enrolled, QueueMemberJoined, WrapAll;
    var before := s.room.table.members;
    var after := s'.room.table.members;
    assert after[|before|] == m;
    assert forall i :: 0 <= i < |before| ==> after[i] == before[i];
    assert IdSet(before) - IdSet(after) == {};
    assert LeftBetween(before, after, s'.room.epoch) == map[];
    assert s.left + map[] == s.left;
    assert Plain(m) == m;
  }

  lemma PastDepart(s: System, s': System, input: Input, actions: seq<Action>, move: Move)
    requires s' == Step(s, input) && move.Depart? && DepartOk(s.room, s'.room, actions, move)
    requires s'.room.table.members != [] && s'.room.table.members[|s'.room.table.members| - 1].id in s.admitted
    ensures var gone := set id | id in move.ids;
      && PastOf(s') == Departed(PastOf(s), gone, s'.room.epoch) && gone <= IdSet(s.room.table.members) &&
        HOST_ID !in gone
      && IdSet(s'.room.table.members) == IdSet(s.room.table.members) - gone
  {
    hide Handle, RelayedIn, Acknowledged, Enrolled, QueueAllGone, WrapAll, IdSet, AllQuiet, Survivors, NextEpoch,
      OneLeft, LeftBetween;
    GoneBetween(s.room.table.members, s'.room.table.members, move.ids, s'.room.epoch);
    BegunLater(s.room, s'.room, actions, move);
  }

  lemma BegunLater(r: Room, r': Room, actions: seq<Action>, move: Move)
    requires move.Depart? && DepartOk(r, r', actions, move)
    ensures r'.epoch == r.epoch + 1
  {
    hide QueueAllGone, WrapAll, AllQuiet, Survivors, OneLeft;
  }

  lemma GoneBetween(before: seq<Member>, after: seq<Member>, ids: seq<MemberId>, epoch: nat)
    requires Survivors(before, after, ids)
    ensures var gone := set id | id in ids;
      && gone <= IdSet(before) && IdSet(after) == IdSet(before) - gone
      && LeftBetween(before, after, epoch) == map z | z in gone :: epoch
  {
    hide IdSet;
  }

  // ---- every step -------------------------------------------------------------------------------------------------

  // One step of a run that is not over, and what is known around it.
  ghost predicate Stepping(s: System, s': System, input: Input, actions: seq<Action>, move: Move) {
    && RunInv(s) && KeyInv(s) && s' == Step(s, input) && RoomInv(s'.room) && KeyInv(s')
    && ChannelInv(s'.room, s'.log, s'.issued) && s'.log == s.log + actions
    && s.room.nextKey >= 1 && MoveOk(s.room, s'.room, actions, move)
    && s.room.phase != Destroyed && s'.room.phase != Destroyed
    && (s.room.pending.None? ==> s.room.deferred == [])
  }

  lemma StepParts(s: System, s': System, input: Input, actions: seq<Action>, move: Move)
    requires Stepping(s, s', input, actions, move)
    ensures ChannelInv(s.room, s.log, s.issued) && RoomInv(s.room)
    ensures AdmittedInv(s.room.table.members, s.room.table.nextId, s.room.epoch, s.admitted)
    ensures AdmittedInv(s'.room.table.members, s'.room.table.nextId, s'.room.epoch, s'.admitted)
    ensures AllApart(s.room.table.members) && AllApart(s'.room.table.members)
    ensures s.room.table.members != [] && s'.room.table.members != []
    ensures s'.issued == Enrolled(s.issued, s'.room.table.members)
  {
    hide RosterInv, EpochInv, MarksInv, AllApart, MoveOk, Step, AgreementInv, HostAwaits, HostMisses, MemberInv,
      IssuedInv, AllDeferredOk, ChannelsOrdered, RosterSpans, WrapsSound, WrapsComplete, WrapOrder, RosterKeys,
      AdmittedInv, TableInv;
    RoomTableIsApart(s.room);
    RoomTableIsApart(s'.room);
    StepIssued(s, input);
  }

  lemma StepIssued(s: System, input: Input)
    ensures Step(s, input).issued == Enrolled(s.issued, Step(s, input).room.table.members)
  {
    hide Handle, Enrolled, AdmittedAfter, RelayedIn, LeftBetween, Acknowledged, IdSet;
  }

  lemma EmptyFlush(c: ConnectionId, v: View)
    ensures ReceiveAll(c, v, []) == v
  {
  }

  lemma SelfSame(v: View)
    requires v.chat.Some?
    ensures SameList(v, v)
  {
  }

  // Moves that change no list, now or deferred.
  lemma QuietTables(s: System, s': System, input: Input, actions: seq<Action>, move: Move)
    requires Stepping(s, s', input, actions, move) && TablesInv(s)
    requires move.Idle? || move.RelayChat? || move.ChangePolicy?
    ensures TablesInv(s')
  {
    hide RoomInv, KeyInv, ChannelInv, Step, RowOk, PastOk, IdSet, AdmittedInv, AllApart, SameRoom, ViewOf, AllQuiet,
      RelayOk, RunInv, SignedEvent, SendAll;
    StepParts(s, s', input, actions, move);
    QuietIsWithin(s.room, s'.room, actions, move);
    PastWithin(s, s', input);
    forall i | 0 <= i < |s'.room.table.members| ensures RowInv(s', i) {
      SameMember(s.room, s'.room, i);
      assert RowInv(s, i);
      QuietLists(s, s', input, actions, move, i);
      RowOfSameLists(PastOf(s), IdSet(s.room.table.members), s.room.epoch, s.room.pending.Some?,
        s.room.table.members[i],
        s'.room.table.members[i], ViewAt(s, i), FlushedAt(s, i), ViewAt(s', i), FlushedAt(s', i));
    }
  }

  lemma QuietIsWithin(r: Room, r': Room, actions: seq<Action>, move: Move)
    requires r.nextKey >= 1 && MoveOk(r, r', actions, move) && (move.Idle? || move.RelayChat? || move.ChangePolicy?)
    ensures SameRoom(r, r') && r'.deferred == r.deferred && r'.epoch == r.epoch
    ensures |r'.table.members| == |r.table.members|
    ensures r'.phase != Destroyed ==> r'.pending.Some? == r.pending.Some?
    ensures !Activates(r, r')
    ensures move.ChangePolicy? ==> r.pending.None?
  {
    hide SendAll, RelayOk, SignedEvent, AllQuiet, MarksGrow;
  }

  lemma QuietLists(s: System, s': System, input: Input, actions: seq<Action>, move: Move, i: nat)
    requires Stepping(s, s', input, actions, move) && (move.Idle? || move.RelayChat? || move.ChangePolicy?)
    requires i < |s.room.table.members| && RowInv(s, i) && |s'.room.table.members| == |s.room.table.members|
    ensures SameList(ViewAt(s, i), ViewAt(s', i)) && SameList(FlushedAt(s, i), FlushedAt(s', i))
  {
    hide RoomInv, KeyInv, ChannelInv, Step, PastOk, ListOk, FlushOk, WellListed, IdSet, AdmittedInv, AllApart, SameRoom,
      ViewOf, AllQuiet, RelayOk, RunInv, SignedEvent, SendAll, RelayMoveOk, PolicyOk, IdleOk, Cores, ReceiveAll;
    StepParts(s, s', input, actions, move);
    QuietIsWithin(s.room, s'.room, actions, move);
    SameMember(s.room, s'.room, i);
    var c := s.room.table.members[i].connection;
    match move
    case Idle => IdleLists(s.room, s'.room, s.log, actions, i);
    case RelayChat(_, _, _, _) =>
      RelayLists(s.room, s'.room, s.log, actions, s.issued, move, i);
      DeferredOfRoom(s.room, s.log, s.issued);
      FlushRespectsCores(c, ViewAt(s, i), ViewAt(s', i), s.room.deferred);
      EqualCoresList(ViewAt(s, i), ViewAt(s', i));
      EqualCoresList(FlushedAt(s, i), FlushedAt(s', i));
    case ChangePolicy(open, closed) =>
      PolicyLists(s.room, s'.room, s.log, actions, s.issued, open, closed, i);
      UnchangedList(ViewAt(s, i), ViewAt(s', i));
      EmptyFlush(c, ViewAt(s, i));
      EmptyFlush(c, ViewAt(s', i));
  }

  lemma EqualCoresList(v: View, w: View)
    requires CoreEqual(v, w)
    ensures SameList(v, w)
  {
  }

  lemma UnchangedList(v: View, w: View)
    requires CoreUnchanged(v, w)
    ensures SameList(v, w)
  {
  }

  lemma DeferredOfRoom(r: Room, log: seq<Action>, issued: Issued)
    requires ChannelInv(r, log, issued)
    ensures forall i :: 0 <= i < |r.deferred| ==> r.deferred[i].SendTo? && r.deferred[i].message.RoomEvent?
    ensures forall i :: 0 <= i < |r.deferred| ==> r.deferred[i].message.epoch <= r.epoch
  {
    hide RoomInv, MemberInv, ChannelsOrdered, IssuedInv;
    assert forall i :: 0 <= i < |r.deferred| ==> DeferredOk(r.deferred[i], r.hostKey, r.epoch, r.sequence, issued);
  }

  // Activation: the lists are now what they were after the flush.
  lemma ActivateTables(s: System, s': System, input: Input, actions: seq<Action>, move: Move)
    requires Stepping(s, s', input, actions, move) && TablesInv(s) && move.Activate?
    ensures TablesInv(s')
  {
    hide RoomInv, KeyInv, ChannelInv, Step, PastOk, IdSet, AdmittedInv, AllApart, SameRoom, ViewOf, AllQuiet, RunInv,
      WellListed, ListOk, FlushOk, ReceiveAll;
    StepParts(s, s', input, actions, move);
    ActivateIsWithin(s.room, s'.room, actions, move.tail);
    PastWithin(s, s', input);
    var p := PastOf(s);
    var table := IdSet(s.room.table.members);
    ActivatedPast(p, table, s.room.epoch);
    NoTwinsInTable(s.room.table.members, s.room.table.nextId, s.room.epoch, p);
    forall i | 0 <= i < |s'.room.table.members| ensures RowInv(s', i) {
      var x := s.room.table.members[i];
      SameMember(s.room, s'.room, i);
      assert RowInv(s, i);
      ActivateLists(s.room, s'.room, s.log, actions, s.issued, move.tail, i);
      EmptyFlush(x.connection, ViewAt(s', i));
      MemberPast(s.room.table.members, s.room.table.nextId, s.room.epoch, p, i);
      ActivatedRow(p, table, s.room.epoch, x, s'.room.table.members[i], ViewAt(s, i), FlushedAt(s, i));
    }
  }

  lemma MemberPast(members: seq<Member>, nextId: MemberId, epoch: nat, p: Past, i: nat)
    requires AdmittedInv(members, nextId, epoch, p.admitted) && i < |members|
    ensures members[i].id in IdSet(members) && members[i].id in p.admitted
    ensures p.Joined(members[i].id) == members[i].joinedEpoch <= epoch
  {
  }

  lemma ActivatedRow(p: Past, table: set<MemberId>, epoch: nat, x: Member, x': Member, v: View, w: View)
    requires PastOk(p, table, epoch, true) && NoTwins(p, table) && RowOk(p, table, epoch, true, x, v, w)
    requires x.id in table && x.id in p.admitted && p.Joined(x.id) == x.joinedEpoch && Plain(x') == Plain(x)
    ensures RowOk(Activated(p, epoch), table, epoch, false, x', w, w)
  {
    hide PastOk, NoTwins, ListOk, Clashes, WellListed;
    var b := ListedIds(w.chat.value.members);
    ActivatedList(p, table, epoch, x, ListedIds(v.chat.value.members), b);
    SelfSame(w);
    SettledFlush(Activated(p, epoch), table, epoch, x, b);
    RowOfSameLists(Activated(p, epoch), table, epoch, false, x, x', w, w, w, w);
  }

  lemma SettledFlush(p: Past, table: set<MemberId>, epoch: nat, x: Member, a: set<MemberId>)
    ensures FlushOk(p, table, epoch, false, x, a, a)
  {
  }

  lemma ActivateIsWithin(r: Room, r': Room, actions: seq<Action>, tail: seq<Action>)
    requires ActivateOk(r, r', actions, tail) && r'.phase != Destroyed
    ensures SameRoom(r, r') && r'.deferred == [] && r'.epoch == r.epoch && Activates(r, r')
    ensures |r'.table.members| == |r.table.members|
  {
    hide AllQuiet, MarksGrow;
  }

  // A member under the next epoch key hears the next announcement.
  lemma NextListening(r: Room, r': Room, log: seq<Action>, log': seq<Action>, issued: Issued, issued': Issued,
    x: Member)
    requires r.nextKey >= 1 && MemberInv(r, log, issued, x) && TopOf(x.connection, 0, log) <= r.sequence
    requires r'.nextKey >= 1 && MemberInv(r', log', issued', x) && r'.hostKey == r.hostKey
    requires Rekeyed(ViewOf(r.hostKey, x, log), ViewOf(r.hostKey, x, log'))
    ensures var v := ViewOf(r.hostKey, x, log');
      v.chat.Some? && Listening(v.chat.value, r.hostKey, r'.epoch, r.sequence + 1)
  {
    hide ViewOf, TopOf;
  }

  lemma EnrollTables(s: System, s': System, input: Input, actions: seq<Action>, move: Move)
    requires Stepping(s, s', input, actions, move) && TablesInv(s) && move.Enroll?
    ensures TablesInv(s')
  {
    hide RoomInv, KeyInv, ChannelInv, Step, PastOk, IdSet, AdmittedInv, AllApart, ViewOf, RunInv, ReceiveAll, RowOk,
      QueueMemberJoined, WrapAll, SnapshotOf;
    StepParts(s, s', input, actions, move);
    var m := move.m;
    NewIdIsFresh(s, m);
    PastEnroll(s, s', input, actions, m);
    EnrollFacts(s.room, s'.room, actions, m);
    var p := PastOf(s);
    var table := IdSet(s.room.table.members);
    AdmittedPast(p, table, s.room.epoch, m);
    forall i | 0 <= i < |s'.room.table.members| ensures RowInv(s', i) {
      if i < |s.room.table.members| { assert RowInv(s, i); EnrollOldRow(s, s', input, actions, move, i); }
      else { EnrollNewRow(s, s', input, actions, move); }
    }
  }

  lemma NewIdIsFresh(s: System, m: Member)
    requires AdmittedInv(s.room.table.members, s.room.table.nextId, s.room.epoch, s.admitted) &&
      m.id == s.room.table.nextId
    ensures m.id !in s.admitted && forall id :: id in s.admitted ==> id < m.id
  {
  }

  lemma EnrollFacts(r: Room, r': Room, actions: seq<Action>, m: Member)
    requires RoomInv(r') && EnrollOk(r, r', actions, m) && r.table.members != []
    ensures r.pending.None? && r'.pending.Some? && r'.epoch == r.epoch + 1 && m.joinedEpoch == r.epoch + 1 && !m.isHost
    ensures m.id == r.table.nextId && m.id != HOST_ID && m.nickname.valid && r'.hostKey == r.hostKey
    ensures r'.table.members == r.table.members + [m] && r'.table.limit <= MAX_MEMBERS
    ensures NextEpoch(r, r')
  {
    hide MarksInv, EpochInv, LinkInv, QueueInv, LimitsInv, QueueMemberJoined, WrapAll, TableInv;
    assert r'.table.members[|r.table.members|] == m;
    NewcomerIsNotHost(r', |r.table.members|);
  }

  lemma EnrollOldRow(s: System, s': System, input: Input, actions: seq<Action>, move: Move, i: nat)
    requires Stepping(s, s', input, actions, move) && move.Enroll? && i < |s.room.table.members|
    requires PastOk(PastOf(s), IdSet(s.room.table.members), s.room.epoch, false) && RowInv(s, i)
    ensures i < |s'.room.table.members| && RowInv(s', i)
  {
    hide RoomInv, KeyInv, Step, PastOk, IdSet, AdmittedInv, AllApart, ViewOf, RunInv, ReceiveAll, RowOk,
      QueueMemberJoined, WrapAll, SnapshotOf, MemberInv, IssuedInv, AllDeferredOk, Enrolled, NothingFor, Rekeyed,
      NextEpoch, TopOf, Ordered;
    StepParts(s, s', input, actions, move);
    var m := move.m;
    var x := s.room.table.members[i];
    NewIdIsFresh(s, m);
    EnrollFacts(s.room, s'.room, actions, m);
    PastEnroll(s, s', input, actions, m);
    assert s'.room.table.members[i] == x && s'.room.table.members[|s.room.table.members|] == m;
    OthersApart(s'.room.table.members, i, |s.room.table.members|);
    AdmissionIsNotFor(x.connection, m);
    EnrolledGrows(s.issued, s'.room.table.members);
    var before := [SendTo(m.connection, JoinAccepted(m.id)), Notify(MemberJoined(m.id, m.nickname))];
    EnrollShape(s.room, s'.room, actions, m);
    RoomKeyed(s.room);
    RoomMarks(s.room);
    NextEpochMember(s.room, s'.room, s.log, actions, before, [], s.issued, s'.issued, x, i);
    RoomKeyed(s'.room);
    assert s.log + s.room.deferred == s.log;
    assert TopOf(x.connection, 0, s.log) <= s.room.sequence;
    assert MemberInv(s'.room, s'.log, s'.issued, s'.room.table.members[i]);
    NextListening(s.room, s'.room, s.log, s'.log, s.issued, s'.issued, x);
    JoinedFlush(s.room, s'.room, ViewAt(s', i), m, i);
    EmptyFlush(x.connection, ViewAt(s, i));
    MemberPast(s.room.table.members, s.room.table.nextId, s.room.epoch, PastOf(s), i);
    ApartIds(s'.room.table.members, i, |s.room.table.members|);
    RekeyedLists(ViewAt(s, i), ViewAt(s', i));
    JoinedRow(PastOf(s), IdSet(s.room.table.members), s.room.epoch, m, x, ViewAt(s, i), ViewAt(s', i),
      FlushedAt(s', i));
  }

  lemma RekeyedLists(v: View, w: View)
    requires Rekeyed(v, w)
    ensures v.chat.Some? && w.chat.Some? && w.chat.value.members == v.chat.value.members
  {
  }

  lemma RoomMarks(r: Room)
    requires RoomInv(r)
    ensures MarksInv(r.replay, r.epoch)
  {
  }

  lemma EnrollShape(r: Room, r': Room, actions: seq<Action>, m: Member)
    requires EnrollOk(r, r', actions, m)
    ensures actions == [SendTo(m.connection, JoinAccepted(m.id)), Notify(MemberJoined(m.id, m.nickname))] +
      WrapAll(r'.table.members, r'.epoch, EpochKey(r.nextKey)) + []
    ensures r' == QueueMemberJoined(Begun(r, r'), m)
  {
    hide WrapAll, QueueMemberJoined;
  }

  lemma EnrollNewRow(s: System, s': System, input: Input, actions: seq<Action>, move: Move)
    requires Stepping(s, s', input, actions, move) && move.Enroll?
    requires PastOk(PastOf(s), IdSet(s.room.table.members), s.room.epoch, false)
    ensures |s.room.table.members| < |s'.room.table.members| && RowInv(s', |s.room.table.members|)
  {
    hide RoomInv, KeyInv, Step, PastOk, IdSet, AdmittedInv, AllApart, ViewOf, RunInv, ReceiveAll, RowOk,
      QueueMemberJoined, WrapAll, SnapshotOf, MemberInv, IssuedInv, AllDeferredOk, Enrolled, NothingFor, TableInv,
      WellListed, ListedIds, ChannelsOrdered;
    StepParts(s, s', input, actions, move);
    var m := move.m;
    var k := |s.room.table.members|;
    NewIdIsFresh(s, m);
    EnrollFacts(s.room, s'.room, actions, m);
    PastEnroll(s, s', input, actions, m);
    assert s'.room.table.members[k] == m;
    RoomTableIsApart(s'.room);
    RoomKeyed(s.room);
    RoomKeyed(s'.room);
    NewMember(s.room, s'.room, s.log, actions, s'.issued, m);
    InstalledEpoch(s'.room, s'.log, s'.issued, m);
    EnrollShape(s.room, s'.room, actions, m);
    EnrollNewMember(s.room, s'.room, ViewAt(s', k), m);
    TableListed(s'.room.table.members, s'.room.table.nextId, s'.room.epoch, s'.admitted,
      FlushedAt(s', k).chat.value.members);
    NewRow(PastOf(s), IdSet(s.room.table.members), s.room.epoch, m, ViewAt(s', k), FlushedAt(s', k));
  }

  lemma DepartTables(s: System, s': System, input: Input, actions: seq<Action>, move: Move)
    requires Stepping(s, s', input, actions, move) && TablesInv(s) && move.Depart?
    ensures TablesInv(s')
  {
    hide RoomInv, KeyInv, ChannelInv, Step, PastOk, IdSet, AdmittedInv, AllApart, ViewOf, RunInv, ReceiveAll, RowOk,
      QueueAllGone, WrapAll, Survivors, OneLeft, AllQuiet;
    StepParts(s, s', input, actions, move);
    LastIsAdmitted(s.room, s'.room, s.admitted, move.ids, s.room.table.nextId, s.room.epoch);
    PastDepart(s, s', input, actions, move);
    var p := PastOf(s);
    var gone := set id | id in move.ids;
    DepartedPast(p, IdSet(s.room.table.members), s.room.epoch, s.room.pending.Some?, gone);
    forall i | 0 <= i < |s'.room.table.members| ensures RowInv(s', i) {
      var k := SurvivorAt(s.room.table.members, s'.room.table.members, move.ids, i);
      assert RowInv(s, k);
      DepartRow(s, s', input, actions, move, i, k);
    }
  }

  lemma SurvivorAt(before: seq<Member>, after: seq<Member>, ids: seq<MemberId>, i: nat) returns (k: nat)
    requires Survivors(before, after, ids) && i < |after|
    ensures k < |before| && before[k] == after[i]
  {
    assert after[i] in before;
    k :| 0 <= k < |before| && before[k] == after[i];
  }

  lemma LastIsAdmitted(r: Room, r': Room, admitted: map<MemberId, Member>, ids: seq<MemberId>, nextId: MemberId,
    epoch: nat)
    requires Survivors(r.table.members, r'.table.members, ids) && r'.table.members != []
    requires AdmittedInv(r.table.members, nextId, epoch, admitted)
    ensures r'.table.members[|r'.table.members| - 1].id in admitted
  {
    hide IdSet;
    var k := SurvivorAt(r.table.members, r'.table.members, ids, |r'.table.members| - 1);
  }

  lemma DepartView(s: System, s': System, input: Input, actions: seq<Action>, move: Move, i: nat, k: nat)
    requires Stepping(s, s', input, actions, move) && move.Depart? && i < |s'.room.table.members|
    requires k < |s.room.table.members| && s.room.table.members[k] == s'.room.table.members[i]
    ensures Rekeyed(ViewAt(s, k), ViewAt(s', i)) && ViewAt(s', i).chat.Some?
    ensures Listening(ViewAt(s', i).chat.value, s.room.hostKey, s'.room.epoch, s.room.sequence + 1)
  {
    hide RoomInv, KeyInv, Step, IdSet, AdmittedInv, AllApart, ViewOf, RunInv, ReceiveAll, QueueAllGone, WrapAll,
      Survivors, OneLeft, AllQuiet, MemberInv, IssuedInv, AllDeferredOk, Enrolled, NothingFor, Rekeyed, TopOf, Ordered,
      MarksInv;
    StepParts(s, s', input, actions, move);
    var x := s.room.table.members[k];
    QuietIsNothing(x.connection, move.before);
    QuietIsNothing(x.connection, move.after);
    EnrolledGrows(s.issued, s'.room.table.members);
    RoomKeyed(s.room);
    RoomMarks(s.room);
    NextEpochMember(s.room, s'.room, s.log, actions, move.before, move.after, s.issued, s'.issued, x, i);
    RoomKeyed(s'.room);
    TopBeforeDeferred(s.room, s.log, x.connection);
    assert MemberInv(s'.room, s'.log, s'.issued, s'.room.table.members[i]);
    NextListening(s.room, s'.room, s.log, s'.log, s.issued, s'.issued, x);
  }

  lemma DepartRow(s: System, s': System, input: Input, actions: seq<Action>, move: Move, i: nat, k: nat)
    requires Stepping(s, s', input, actions, move) && move.Depart? && i < |s'.room.table.members|
    requires k < |s.room.table.members| && s.room.table.members[k] == s'.room.table.members[i] && RowInv(s, k)
    requires PastOk(PastOf(s), IdSet(s.room.table.members), s.room.epoch, s.room.pending.Some?)
    requires s'.room.table.members[|s'.room.table.members| - 1].id in s.admitted
    ensures RowInv(s', i)
  {
    hide RoomInv, KeyInv, Step, PastOk, IdSet, AdmittedInv, AllApart, ViewOf, RunInv, ReceiveAll, RowOk, QueueAllGone,
      WrapAll, Survivors, OneLeft, AllQuiet, MemberInv, IssuedInv, AllDeferredOk, Enrolled, NothingFor, Rekeyed, TopOf,
      Ordered, MarksInv, Listening;
    StepParts(s, s', input, actions, move);
    PastDepart(s, s', input, actions, move);
    DepartView(s, s', input, actions, move, i, k);
    DeferredOfRoom(s.room, s.log, s.issued);
    var x := s.room.table.members[k];
    var v := ViewAt(s', i);
    RekeyedLists(ViewAt(s, k), v);
    var b := Begun(s.room, s'.room);
    ListeningEpoch(v.chat.value, s.room.hostKey, s'.room.epoch, s.room.sequence + 1);
    StaleFlush(x.connection, v, b.deferred, s'.room.epoch);
    GoneFlush(b, move.ids, move.kicked, i, v);
    MemberPast(s.room.table.members, s.room.table.nextId, s.room.epoch, PastOf(s), k);
    DepartedRow(PastOf(s), IdSet(s.room.table.members), s.room.epoch, s.room.pending.Some?, move.ids, x,
      ViewAt(s, k), FlushedAt(s, k), v, FlushedAt(s', i));
  }

  lemma ListeningEpoch(s: Chat, hostKey: PublicKey, epoch: nat, bound: nat)
    requires Listening(s, hostKey, epoch, bound)
    ensures s.epoch.Some? && s.epoch.value.0 == epoch
    ensures Listening(s, hostKey, epoch, bound + 1)
  {
  }

  // What was sent on a channel is older than what is deferred for it.
  lemma TopBeforeDeferred(r: Room, log: seq<Action>, c: ConnectionId)
    requires ChannelsOrdered(log, r.deferred, r.sequence)
    ensures TopOf(c, 0, log) <= r.sequence
  {
    OrderedConcat(c, 0, log, r.deferred);
    assert Ordered(c, 0, log + r.deferred) && TopOf(c, 0, log + r.deferred) <= r.sequence;
    TopGrows(c, TopOf(c, 0, log), r.deferred);
  }

  lemma {:induction false} TopGrows(c: ConnectionId, top: nat, actions: seq<Action>)
    requires Ordered(c, top, actions)
    ensures top <= TopOf(c, top, actions)
    decreases |actions|
  {
    if actions != [] { TopGrows(c, top, actions[..|actions| - 1]); }
  }

  lemma DepartedRow(p: Past, table: set<MemberId>, epoch: nat, pending: bool, ids: seq<MemberId>, x: Member,
    u: View, flushed: View, v: View, w: View)
    requires PastOk(p, table, epoch, pending) && RowOk(p, table, epoch, pending, x, u, flushed) &&
      x.joinedEpoch <= epoch
    requires var gone := set id | id in ids; gone <= table && HOST_ID !in gone
    requires v.chat.Some? && v.chat.value.members == u.chat.value.members
    requires w.chat.Some? && w.chat.value.members == WithoutAll(v.chat.value.members, ids)
    ensures var gone := set id | id in ids;
      RowOk(Departed(p, gone, epoch + 1), table - gone, epoch + 1, true, x, v, w)
  {
    hide ListOk, WellListed, ListedIds, WithoutAll, PastOk;
    var gone := set id | id in ids;
    var views := v.chat.value.members;
    DepartedList(p, table, epoch, pending, gone, x, ListedIds(views));
    WithoutAllListed(views, ids, p.admitted);
    DepartedFlush(p, table, epoch, pending, gone, x, ListedIds(views));
  }

  lemma DepartedFlush(p: Past, table: set<MemberId>, epoch: nat, pending: bool, gone: set<MemberId>, x: Member,
    a: set<MemberId>)
    requires PastOk(p, table, epoch, pending) && gone <= table && HOST_ID !in gone
    ensures FlushOk(Departed(p, gone, epoch + 1), table - gone, epoch + 1, true, x, a, a - gone)
  {
    var q := Departed(p, gone, epoch + 1);
    assert Leaving(q, epoch + 1, true) == gone;
    NobodyNew(p, table, epoch, pending, gone, epoch + 1);
  }

  lemma NobodyNew(p: Past, table: set<MemberId>, epoch: nat, pending: bool, gone: set<MemberId>, next: nat)
    requires PastOk(p, table, epoch, pending) && next == epoch + 1
    ensures forall m :: !Newcomer(Departed(p, gone, next), next, m)
  {
    assert forall m :: m in p.admitted ==> p.Joined(m) <= epoch;
  }

  lemma TablesStep(s: System, input: Input)
    requires RunInv(s) && KeyInv(s) && TablesInv(s) && Admissible(input.event)
    ensures TablesInv(Step(s, input))
  {
    hide RunInv, KeyInv, TablesInv, RoomInv, ChannelInv, Step, MoveOk, Handle;
    var s' := Step(s, input);
    var actions := Sent(Handle(s.room, input.event, input.now).1);
    var move := ChannelStep(s, input);
    KeyStep(s, input);
    StepLog(s, input);
    if s'.room.phase == Destroyed { ClosedTables(s'); }
    else {
      RoomKeyed(s.room);
      match move
      case Activate(_) => ActivateTables(s, s', input, actions, move);
      case Enroll(_) => EnrollTables(s, s', input, actions, move);
      case Depart(_, _, _, _) => DepartTables(s, s', input, actions, move);
      case _ => QuietTables(s, s', input, actions, move);
    }
  }

  lemma StepLog(s: System, input: Input)
    ensures Step(s, input).log == s.log + Sent(Handle(s.room, input.event, input.now).1)
  {
    hide Handle, Enrolled, AdmittedAfter, RelayedIn, LeftBetween, Acknowledged, IdSet;
  }

  lemma ClosedTables(s: System)
    requires s.room.phase == Destroyed
    ensures TablesInv(s)
  {
  }

  lemma TablesLaunch(launch: Launch)
    requires LaunchOk(launch)
    ensures TablesInv(Launched(launch))
  {
    hide ViewOf, Agrees, WrapAll, MemberInv, ReceiveAll, Cores, WellListed, ListOk, FlushOk, PastOk;
    var s := Launched(launch);
    var m := s.room.table.members[0];
    FirstView(launch);
    FirstPast(launch);
    LaunchedView(launch);
    TableListed(s.room.table.members, 1, 1, s.admitted, ViewAt(s, 0).chat.value.members);
    FirstRow(PastOf(s), m);
    forall i | 0 <= i < |s.room.table.members| ensures RowInv(s, i) { assert i == 0; }
  }

  lemma LaunchedView(launch: Launch)
    requires LaunchOk(launch)
    ensures var s := Launched(launch);
      && s.room.deferred == [] && ViewAt(s, 0) == FlushedAt(s, 0) && ViewAt(s, 0).chat.Some?
      && Cores(ViewAt(s, 0).chat.value.members) == MemberCores(s.room.table.members)
  {
    hide ViewOf, Cores, MemberCores, WrapAll;
    FirstView(launch);
    EmptyFlush(Launched(launch).room.table.members[0].connection, ViewAt(Launched(launch), 0));
  }

  lemma FirstPast(launch: Launch)
    requires LaunchOk(launch)
    ensures var s := Launched(launch);
      && IdSet(s.room.table.members) == {HOST_ID} && s.room.epoch == 1 && s.room.pending.Some?
      && PastOk(PastOf(s), {HOST_ID}, 1, true) && AllApart(s.room.table.members)
      && AdmittedInv(s.room.table.members, 1, 1, s.admitted)
  {
    hide WrapAll;
    assert |Launched(launch).room.table.members| == 1;
  }

  lemma FirstRow(p: Past, host: Member)
    requires PastOk(p, {HOST_ID}, 1, true) && host.id == HOST_ID && host.joinedEpoch == 1
    ensures ListOk(p, {HOST_ID}, 1, true, host, {HOST_ID}) && FlushOk(p, {HOST_ID}, 1, true, host, {HOST_ID}, {HOST_ID})
  {
  }

  lemma {:induction false} TablesHold(launch: Launch, inputs: seq<Input>)
    requires LaunchOk(launch) && AllAdmissible(inputs)
    ensures TablesInv(Run(launch, inputs))
    decreases |inputs|
  {
    hide RunInv, KeyInv, TablesInv, Step, Launched;
    if inputs == [] { TablesLaunch(launch); }
    else {
      var before := inputs[..|inputs| - 1];
      RunHolds(launch, before);
      KeysHold(launch, before);
      TablesHold(launch, before);
      TablesStep(Run(launch, before), inputs[|inputs| - 1]);
    }
  }

  // ---- the theorem --------------------------------------------------------------------------

  // The member at index `i` lists exactly the host's members, colours aside.
  predicate ListsTable(s: System, i: nat)
    requires i < |s.room.table.members|
  {
    ViewAt(s, i).chat.Some? && Cores(ViewAt(s, i).chat.value.members) == MemberCores(s.room.table.members)
  }

  lemma ListsTableExactly(s: System, i: nat)
    requires RoomInv(s.room) && KeyInv(s) && i < |s.room.table.members| && RowInv(s, i)
    ensures ListsTable(s, i) <==> ListedIds(ViewAt(s, i).chat.value.members) == IdSet(s.room.table.members)
  {
    hide ViewOf, RosterInv, EpochInv, MarksInv, Cores, MemberCores, RosterSpans, WrapsSound, WrapsComplete, WrapOrder,
      ListOk, FlushOk, WellListed, ListedIds;
    RoomTableIsApart(s.room);
    var members := s.room.table.members;
    var views := ViewAt(s, i).chat.value.members;
    if ListsTable(s, i) { TableListed(members, s.room.table.nextId, s.room.epoch, s.admitted, views); }
    if ListedIds(views) == IdSet(members) {
      TableCores(members, s.room.table.nextId, s.room.epoch, s.admitted);
      SameIdsSameList(views, members, s.admitted);
    }
  }

  lemma TableCores(members: seq<Member>, nextId: MemberId, epoch: nat, admitted: map<MemberId, Member>)
    requires AllApart(members) && AdmittedInv(members, nextId, epoch, admitted)
    ensures forall i, j :: 0 <= i < j < |members| ==> members[i].id < members[j].id
    ensures forall i :: 0 <= i < |members| ==>
      members[i].id in admitted && CoreOfMember(admitted[members[i].id]) == CoreOfMember(members[i])
    ensures forall id :: id in IdSet(members) <==> exists i :: 0 <= i < |members| && members[i].id == id
  {
    forall i, j | 0 <= i < j < |members| ensures members[i].id < members[j].id { assert Apart(members[i], members[j]); }
  }

  // In an Open or Locked room all members list the host's table if and only if no current
  // member's admission was restarted before it was activated, and no departure was restarted of
  // somebody whom a current member had come to list.
  lemma {:induction false} TablesExactly(launch: Launch, inputs: seq<Input>)
    requires LaunchOk(launch) && AllAdmissible(inputs) && Quiescent(Run(launch, inputs).room)
    ensures var s := Run(launch, inputs);
      var table := IdSet(s.room.table.members);
      (forall i :: 0 <= i < |s.room.table.members| ==> ListsTable(s, i)) <==>
      AdmissionsCompleted(PastOf(s), table) && DeparturesCompleted(PastOf(s), table)
  {
    hide Run, RunInv, RoomInv, KeyInv, IdSet, PastOk, AdmissionsCompleted, DeparturesCompleted, ListsTable, ListedIds,
      RowInv, ListOk;
    TablesHold(launch, inputs);
    RunHolds(launch, inputs);
    KeysHold(launch, inputs);
    var s := Run(launch, inputs);
    RunRoom(s);
    SettledRoom(s.room);
    var p := PastOf(s);
    var table := IdSet(s.room.table.members);
    forall i | 0 <= i < |s.room.table.members|
      ensures ViewAt(s, i).chat.Some?
      ensures ListsTable(s, i) <==> ListedIds(ViewAt(s, i).chat.value.members) == table
      ensures ListOk(p, table, s.room.epoch, false, s.room.table.members[i],
        ListedIds(ViewAt(s, i).chat.value.members)) {
      RowLists(s, i);
      ListsTableExactly(s, i);
    }
    if forall i :: 0 <= i < |s.room.table.members| ==> ListsTable(s, i) { AllListIsCompleted(s); }
    if AdmissionsCompleted(p, table) && DeparturesCompleted(p, table) {
      forall i | 0 <= i < |s.room.table.members| ensures ListsTable(s, i) {
        CompletedLists(s, i, ListedIds(ViewAt(s, i).chat.value.members));
      }
    }
  }

  lemma RowLists(s: System, i: nat)
    requires i < |s.room.table.members| && RowInv(s, i) && s.room.pending.None?
    ensures ViewAt(s, i).chat.Some?
    ensures ListOk(PastOf(s), IdSet(s.room.table.members), s.room.epoch, false, s.room.table.members[i],
      ListedIds(ViewAt(s, i).chat.value.members))
  {
    hide ViewOf, ListOk, FlushOk, WellListed, ListedIds, IdSet;
  }

  lemma CompletedLists(s: System, i: nat, a: set<MemberId>)
    requires KeyInv(s) && i < |s.room.table.members|
    requires PastOk(PastOf(s), IdSet(s.room.table.members), s.room.epoch, false)
    requires ListOk(PastOf(s), IdSet(s.room.table.members), s.room.epoch, false, s.room.table.members[i], a)
    requires AdmissionsCompleted(PastOf(s), IdSet(s.room.table.members))
    requires DeparturesCompleted(PastOf(s), IdSet(s.room.table.members))
    ensures a == IdSet(s.room.table.members)
  {
    hide RosterSpans, WrapsSound, WrapsComplete, WrapOrder, RosterKeys, PastOk, ListOk, AdmissionsCompleted,
      DeparturesCompleted;
    var m := s.room.table.members[i];
    var x := s.admitted[m.id];
    assert x == Plain(m) && m.id in IdSet(s.room.table.members);
    PlainList(PastOf(s), IdSet(s.room.table.members), s.room.epoch, m, x, a);
    CompletedAgrees(PastOf(s), IdSet(s.room.table.members), s.room.epoch, x, a);
  }

  lemma PlainList(p: Past, table: set<MemberId>, epoch: nat, x: Member, x': Member, a: set<MemberId>)
    requires ListOk(p, table, epoch, false, x, a) && x' == Plain(x)
    ensures ListOk(p, table, epoch, false, x', a)
  {
    hide Ideal;
    SameIdeal(p, x, x');
  }

  lemma AllListIsCompleted(s: System)
    requires KeyInv(s) && PastOk(PastOf(s), IdSet(s.room.table.members), s.room.epoch, false)
    requires forall i :: 0 <= i < |s.room.table.members| ==>
      ListOk(PastOf(s), IdSet(s.room.table.members), s.room.epoch, false, s.room.table.members[i],
        IdSet(s.room.table.members))
    ensures AdmissionsCompleted(PastOf(s), IdSet(s.room.table.members))
    ensures DeparturesCompleted(PastOf(s), IdSet(s.room.table.members))
  {
    hide RosterSpans, WrapsSound, WrapsComplete, WrapOrder, RosterKeys, PastOk, ListOk, AdmissionsCompleted,
      DeparturesCompleted, IdSet;
    var table := IdSet(s.room.table.members);
    forall y | y in table
      ensures y in s.admitted && s.admitted[y].id == y &&
        ListOk(PastOf(s), table, s.room.epoch, false, s.admitted[y], table) {
      var i := IdOfMember(s.room.table.members, y);
      PlainList(PastOf(s), table, s.room.epoch, s.room.table.members[i], s.admitted[y], table);
    }
    AgreedIsCompleted(PastOf(s), table, s.room.epoch);
  }
}
