// The channels of a whole room: every member reads its own in order, whatever the events.
module Channels {
  import opened Wrappers
  import opened RoomTypes
  import opened Members
  import opened Replay
  import opened Actor
  import opened ActorInvariants
  import opened ActorMoves
  import opened Session
  import opened Views

  // ---- the invariant ---------------------------------------------------------------

  predicate IssuedInv(members: seq<Member>, nextId: MemberId, issued: Issued) {
    && (forall i :: 0 <= i < |members| ==> members[i].id in issued && issued[members[i].id] == members[i].ed25519)
    && (forall id :: id in issued ==> id < nextId)
  }

  // The register after the newest member was noted.
  function Enrolled(issued: Issued, members: seq<Member>): Issued {
    if members == [] || members[|members| - 1].id in issued then issued
    else issued[members[|members| - 1].id := members[|members| - 1].ed25519]
  }

  ghost predicate ChannelsOrdered(log: seq<Action>, deferred: seq<Action>, sequence: nat) {
    forall c :: Ordered(c, 0, log + deferred) && TopOf(c, 0, log + deferred) <= sequence
  }

  // What the room promises about the view of one member.
  predicate MemberInv(r: Room, log: seq<Action>, issued: Issued, m: Member)
    requires r.nextKey >= 1
  {
    var v := ViewOf(r.hostKey, m, log);
    && Settled(v, m, r.hostKey, issued, TopOf(m.connection, 0, log) + 1)
    && InEpoch(v, r.epoch, CurrentKey(r), r.replay)
    && (m.id != HOST_ID ==> v.chat.value.policyOpen == r.policyOpen)
  }

  ghost predicate ChannelInv(r: Room, log: seq<Action>, issued: Issued) {
    && RoomInv(r)
    && IssuedInv(r.table.members, r.table.nextId, issued)
    && AllDeferredOk(r.deferred, r.hostKey, r.epoch, r.sequence, issued)
    && ChannelsOrdered(log, r.deferred, r.sequence)
    && (forall i :: 0 <= i < |r.table.members| ==> MemberInv(r, log, issued, r.table.members[i]))
  }

  // ---- facts the moves share -----------------------------------------------------------

  predicate IssuedGrows(before: Issued, after: Issued) {
    forall id :: id in before ==> id in after && after[id] == before[id]
  }

  lemma SettledGrows(v: View, m: Member, hostKey: PublicKey, issued: Issued, issued': Issued, bound: nat)
    requires Settled(v, m, hostKey, issued, bound) && IssuedGrows(issued, issued')
    ensures Settled(v, m, hostKey, issued', bound)
  {
  }

  lemma DeferredGrows(deferred: seq<Action>, hostKey: PublicKey, e: nat, s: nat, issued: Issued, e': nat, s': nat,
    issued': Issued)
    requires AllDeferredOk(deferred, hostKey, e, s, issued) && e <= e' && s <= s' && IssuedGrows(issued, issued')
    ensures AllDeferredOk(deferred, hostKey, e', s', issued')
  {
    forall i | 0 <= i < |deferred| ensures DeferredOk(deferred[i], hostKey, e', s', issued') {
      assert DeferredOk(deferred[i], hostKey, e, s, issued);
    }
  }

  lemma EnrolledGrows(issued: Issued, members: seq<Member>)
    ensures IssuedGrows(issued, Enrolled(issued, members))
    ensures members != [] && members[|members| - 1].id in issued ==> Enrolled(issued, members) == issued
  {
  }

  lemma QuietIsNothing(c: ConnectionId, actions: seq<Action>)
    requires AllQuiet(actions)
    ensures NothingFor(c, actions) && NoEventFor(c, actions)
  {
  }

  lemma NothingHasNoEvent(c: ConnectionId, actions: seq<Action>)
    requires NothingFor(c, actions)
    ensures NoEventFor(c, actions)
  {
  }

  // A batch without announcements leaves the order of every channel as it was.
  lemma OrderedInsert(log: seq<Action>, actions: seq<Action>, deferred: seq<Action>, sequence: nat, sequence': nat)
    requires ChannelsOrdered(log, deferred, sequence) && sequence <= sequence'
    requires forall c :: NoEventFor(c, actions)
    ensures ChannelsOrdered(log + actions, deferred, sequence')
    ensures forall c :: TopOf(c, 0, log + actions) == TopOf(c, 0, log)
  {
    forall c ensures Ordered(c, 0, log + actions + deferred) && TopOf(c, 0, log + actions + deferred) <= sequence'
      && TopOf(c, 0, log + actions) == TopOf(c, 0, log) {
      OrderedConcat(c, 0, log, deferred);
      OrderedConcat(c, 0, log, actions);
      OrderedNothing(c, TopOf(c, 0, log), actions);
      OrderedConcat(c, 0, log + actions, deferred);
    }
  }

  // An announcement newer than everything goes to the end of the queue.
  lemma OrderedAppend(log: seq<Action>, deferred: seq<Action>, sequence: nat, members: seq<Member>, skip: Skip,
    event: Message)
    requires ChannelsOrdered(log, deferred, sequence) && AllApart(members)
    requires event.RoomEvent? && sequence < event.sequence
    ensures ChannelsOrdered(log, deferred + SendAll(members, skip, event), event.sequence)
  {
    var sent := SendAll(members, skip, event);
    forall c ensures Ordered(c, 0, log + (deferred + sent)) && TopOf(c, 0, log + (deferred + sent)) <= event.sequence {
      assert log + (deferred + sent) == (log + deferred) + sent;
      OrderedConcat(c, 0, log + deferred, sent);
      OrderedSendAll(c, TopOf(c, 0, log + deferred), members, skip, event);
    }
  }

  lemma OrderedAppendOne(log: seq<Action>, deferred: seq<Action>, sequence: nat, to: ConnectionId, event: Message)
    requires ChannelsOrdered(log, deferred, sequence) && event.RoomEvent? && sequence < event.sequence
    ensures ChannelsOrdered(log, deferred + [SendTo(to, event)], event.sequence)
  {
    var sent := [SendTo(to, event)];
    forall c ensures Ordered(c, 0, log + (deferred + sent)) && TopOf(c, 0, log + (deferred + sent)) <= event.sequence {
      assert log + (deferred + sent) == (log + deferred) + sent;
      OrderedConcat(c, 0, log + deferred, sent);
      OrderedOne(c, TopOf(c, 0, log + deferred), sent[0]);
    }
  }

  lemma {:induction false} SendAllDeferredOk(members: seq<Member>, skip: Skip, event: Message, hostKey: PublicKey,
    epoch: nat, sequence: nat, issued: Issued)
    requires event.RoomEvent? && SignedBy(hostKey, event) && !event.body.PolicyChanged?
    requires event.sequence <= sequence && event.epoch <= epoch && EventHistorical(event.body, issued)
    ensures AllDeferredOk(SendAll(members, skip, event), hostKey, epoch, sequence, issued)
    decreases |members|
  {
    if members != [] { SendAllDeferredOk(members[..|members| - 1], skip, event, hostKey, epoch, sequence, issued); }
  }

  lemma {:induction false} RelayHasNoEvent(c: ConnectionId, members: seq<Member>, skip: Skip, message: Message)
    requires !message.RoomEvent?
    ensures NoEventFor(c, SendAll(members, skip, message))
    decreases |members|
  {
    if members != [] { RelayHasNoEvent(c, members[..|members| - 1], skip, message); }
  }

  lemma SameMembers(r: Room, r': Room)
    requires Roster(r'.table.members) == Roster(r.table.members)
    ensures |r'.table.members| == |r.table.members|
    ensures forall i :: 0 <= i < |r.table.members| ==> Plain(r'.table.members[i]) == Plain(r.table.members[i])
    ensures MemberCores(r'.table.members) == MemberCores(r.table.members)
    ensures IdSet(r'.table.members) == IdSet(r.table.members)
  {
    assert forall i :: 0 <= i < |r.table.members| ==>
      Plain(r'.table.members[i]) == Roster(r'.table.members)[i] == Roster(r.table.members)[i] ==
        Plain(r.table.members[i]);
    assert forall i :: 0 <= i < |r.table.members| ==> r'.table.members[i].id == r.table.members[i].id;
  }

  lemma SameView(hostKey: PublicKey, m: Member, m': Member, log: seq<Action>)
    requires Plain(m) == Plain(m')
    ensures ViewOf(hostKey, m, log) == ViewOf(hostKey, m', log)
  {
  }

  lemma ViewAfter(hostKey: PublicKey, m: Member, log: seq<Action>, actions: seq<Action>)
    ensures ViewOf(hostKey, m, log + actions) == ReceiveAll(m.connection, ViewOf(hostKey, m, log), actions)
  {
    ReceiveAllConcat(m.connection, InitialView(hostKey, m), log, actions);
  }

  lemma SameRoomIssued(r: Room, r': Room, issued: Issued)
    requires IssuedInv(r.table.members, r.table.nextId, issued) && SameRoom(r, r')
    ensures IssuedInv(r'.table.members, r'.table.nextId, issued)
    ensures r'.table.members != [] ==> Enrolled(issued, r'.table.members) == issued
  {
    SameMembers(r, r');
    forall i | 0 <= i < |r'.table.members|
      ensures r'.table.members[i].id in issued && issued[r'.table.members[i].id] == r'.table.members[i].ed25519 {
      assert Plain(r'.table.members[i]) == Plain(r.table.members[i]);
    }
  }

  // ---- idle moves ------------------------------------------------------------------------

  lemma IdleMember(r: Room, r': Room, log: seq<Action>, actions: seq<Action>, issued: Issued, i: nat)
    requires r.nextKey >= 1 && IdleOk(r, r', actions)
    requires i < |r.table.members| && MemberInv(r, log, issued, r.table.members[i])
    ensures |r'.table.members| == |r.table.members| && MemberInv(r', log + actions, issued, r'.table.members[i])
  {
    var m := r.table.members[i];
    SameMembers(r, r');
    SameView(r.hostKey, m, r'.table.members[i], log + actions);
    QuietIsNothing(m.connection, actions);
    ViewAfter(r.hostKey, m, log, actions);
    ReceiveNothing(m.connection, ViewOf(r.hostKey, m, log), actions);
    OrderedConcat(m.connection, 0, log, actions);
    OrderedNothing(m.connection, TopOf(m.connection, 0, log), actions);
    hide ViewOf, TopOf, AllQuiet;
  }

  lemma IdleKeeps(r: Room, r': Room, log: seq<Action>, actions: seq<Action>, issued: Issued)
    requires ChannelInv(r, log, issued) && RoomInv(r') && IdleOk(r, r', actions)
    ensures ChannelInv(r', log + actions, issued) && Enrolled(issued, r'.table.members) == issued
  {
    hide RosterInv, EpochInv, MarksInv, MemberInv, TableInv, AllApart, ChannelsOrdered;
    RoomTableIsApart(r');
    forall c ensures NoEventFor(c, actions) { QuietIsNothing(c, actions); }
    OrderedInsert(log, actions, r.deferred, r.sequence, r'.sequence);
    DeferredGrows(r.deferred, r.hostKey, r.epoch, r.sequence, issued, r'.epoch, r'.sequence, issued);
    SameRoomIssued(r, r', issued);
    SameMembers(r, r');
    forall i | 0 <= i < |r'.table.members| ensures MemberInv(r', log + actions, issued, r'.table.members[i]) {
      IdleMember(r, r', log, actions, issued, i);
    }
  }

  // ---- relayed envelopes -------------------------------------------------------------------

  lemma RelayMember(r: Room, r': Room, log: seq<Action>, actions: seq<Action>, issued: Issued, move: Move, i: nat,
    k: nat)
    requires r.nextKey >= 1 && move.RelayChat? && RelayMoveOk(r, r', actions, move)
    requires AllApart(r'.table.members) && IssuedInv(r.table.members, r.table.nextId, issued)
    requires i < |r.table.members| && MemberInv(r, log, issued, r.table.members[i])
    requires k < |r.table.members| &&
      Authored(r.table.members[k], move.c, CurrentKey(r), move.kind, move.envelope, move.plaintext)
    ensures |r'.table.members| == |r.table.members| && MemberInv(r', log + actions, issued, r'.table.members[i])
    ensures CoreEqual(ViewOf(r.hostKey, r.table.members[i], log), ViewOf(r.hostKey, r.table.members[i], log + actions))
  {
    hide ViewOf, TopOf, SendAll, AllApart, Authored, PayloadOk, Settled, ReceiveAll, Receive, Ordered, ReceiveEnvelope,
      NoEventFor, Fresh;
    var m := r.table.members[i];
    var message := Relayed(move.kind, move.envelope);
    var v := ViewOf(r.hostKey, m, log);
    SameMembers(r, r');
    SameView(r.hostKey, m, r'.table.members[i], log + actions);
    ViewAfter(r.hostKey, m, log, actions);
    ReceiveSendAll(i, v, r'.table.members, TheConnection(move.c), message);
    RelayHasNoEvent(m.connection, r'.table.members, TheConnection(move.c), message);
    OrderedConcat(m.connection, 0, log, actions);
    OrderedNothing(m.connection, TopOf(m.connection, 0, log), actions);
    ReceiveRelayedKeeps(v, m, r.hostKey, issued, TopOf(m.connection, 0, log) + 1, CurrentKey(r), r.replay,
      move.kind, move.envelope, r.table.members[k], move.c, move.plaintext);
    assert Plain(r'.table.members[i]) == Plain(m);
    SettledPlain(ViewOf(r.hostKey, m, log + actions), m, r'.table.members[i], r.hostKey, issued,
      TopOf(m.connection, 0, log) + 1);
  }

  lemma SettledPlain(v: View, m: Member, m': Member, hostKey: PublicKey, issued: Issued, bound: nat)
    requires Settled(v, m, hostKey, issued, bound) && Plain(m) == Plain(m')
    ensures Settled(v, m', hostKey, issued, bound)
  {
  }

  lemma RelayKeeps(r: Room, r': Room, log: seq<Action>, actions: seq<Action>, issued: Issued, move: Move)
    requires ChannelInv(r, log, issued) && RoomInv(r') && move.RelayChat? && RelayMoveOk(r, r', actions, move)
    ensures ChannelInv(r', log + actions, issued) && Enrolled(issued, r'.table.members) == issued
  {
    hide RosterInv, EpochInv, MarksInv, MemberInv, TableInv, AllApart, ChannelsOrdered, SendAll, Authored;
    RoomTableIsApart(r');
    var message := Relayed(move.kind, move.envelope);
    forall c ensures NoEventFor(c, actions) { RelayHasNoEvent(c, r'.table.members, TheConnection(move.c), message); }
    OrderedInsert(log, actions, r.deferred, r.sequence, r'.sequence);
    DeferredGrows(r.deferred, r.hostKey, r.epoch, r.sequence, issued, r'.epoch, r'.sequence, issued);
    SameRoomIssued(r, r', issued);
    SameMembers(r, r');
    var k :| 0 <= k < |r.table.members| &&
      Authored(r.table.members[k], move.c, CurrentKey(r), move.kind, move.envelope, move.plaintext);
    forall i | 0 <= i < |r'.table.members| ensures MemberInv(r', log + actions, issued, r'.table.members[i]) {
      RelayMember(r, r', log, actions, issued, move, i, k);
    }
  }

  // ---- policy changes --------------------------------------------------------------------------

  lemma PolicyBatch(c: ConnectionId, r: Room, r': Room, actions: seq<Action>, open: bool, closed: seq<Action>, v: View,
    top: nat)
    requires PolicyOk(r, r', actions, open, closed)
    ensures var sent := SendAll(r'.table.members, TheHost, SignedEvent(r', PolicyChanged(open)));
      ReceiveAll(c, v, actions) == ReceiveAll(c, v, sent) && TopOf(c, top, actions) == TopOf(c, top, sent)
      && (Ordered(c, top, actions) <==> Ordered(c, top, sent))
  {
    var sent := SendAll(r'.table.members, TheHost, SignedEvent(r', PolicyChanged(open)));
    var tail := [Notify(JoinPolicyNotice(open))];
    QuietIsNothing(c, closed);
    QuietIsNothing(c, tail);
    hide SendAll, Receive, NothingFor, NoEventFor, PolicyOk;
    ReceiveAllConcat(c, v, closed + sent, tail);
    ReceiveAllConcat(c, v, closed, sent);
    ReceiveNothing(c, v, closed);
    ReceiveNothing(c, ReceiveAll(c, v, sent), tail);
    OrderedConcat(c, top, closed + sent, tail);
    OrderedConcat(c, top, closed, sent);
    OrderedNothing(c, top, closed);
    OrderedNothing(c, TopOf(c, top, sent), tail);
    assert actions == closed + sent + tail;
  }

  lemma PolicyMember(r: Room, r': Room, log: seq<Action>, actions: seq<Action>, issued: Issued, open: bool,
    closed: seq<Action>, i: nat)
    requires r.nextKey >= 1 && PolicyOk(r, r', actions, open, closed) && TableInv(r'.table, r'.hostConnection)
    requires i < |r.table.members| && MemberInv(r, log, issued, r.table.members[i])
    requires TopOf(r.table.members[i].connection, 0, log) <= r.sequence
    ensures |r'.table.members| == |r.table.members| && MemberInv(r', log + actions, issued, r'.table.members[i])
    ensures CoreUnchanged(ViewOf(r.hostKey, r.table.members[i], log),
      ViewOf(r.hostKey, r.table.members[i], log + actions))
  {
    hide ViewOf, TopOf, SendAll, TableInv, AllApart, Settled, ReceiveAll, Receive, Ordered, AllQuiet, NothingFor,
      NoEventFor;
    var m := r.table.members[i];
    var c := m.connection;
    var event := SignedEvent(r', PolicyChanged(open));
    var sent := SendAll(r'.table.members, TheHost, event);
    var v := ViewOf(r.hostKey, m, log);
    var top := TopOf(c, 0, log);
    SameMembers(r, r');
    assert Plain(r'.table.members[i]) == Plain(m);
    SameView(r.hostKey, m, r'.table.members[i], log + actions);
    MemberZeroIsHost(r'.table, r'.hostConnection, i);
    TableIsApart(r'.table, r'.hostConnection);
    ViewAfter(r.hostKey, m, log, actions);
    OrderedConcat(c, 0, log, actions);
    PolicyBatch(c, r, r', actions, open, closed, v, top);
    ReceiveSendAll(i, v, r'.table.members, TheHost, event);
    TopOfSendAll(i, top, r'.table.members, TheHost, event);
    if !r'.table.members[i].isHost {
      SettledWider(v, m, r.hostKey, issued, top + 1, event.sequence);
      ReceivePolicyKeeps(v, m, r.hostKey, issued, event, r.epoch, CurrentKey(r), r.replay);
    }
    var w := ViewOf(r.hostKey, m, log + actions);
    InEpochGrows(w, r.epoch, CurrentKey(r), r.replay, r'.replay);
    SettledPlain(w, m, r'.table.members[i], r.hostKey, issued, TopOf(c, 0, log + actions) + 1);
  }

  lemma TableIsApart(t: Table, host: ConnectionId)
    requires TableInv(t, host)
    ensures AllApart(t.members) && t.members != []
  {
  }

  predicate CoreUnchanged(v: View, w: View) {
    v.chat.Some? && w.chat.Some? && w.refused == v.refused && w.chat.value.members == v.chat.value.members
  }

  // The same session under another epoch key.
  predicate Rekeyed(v: View, w: View) {
    && v.chat.Some? && w.chat.Some? && w.hostKey == v.hostKey && w.refused == v.refused
    && w.chat.value == v.chat.value.(epoch := w.chat.value.epoch, replay := w.chat.value.replay)
  }

  lemma SettledWider(v: View, m: Member, hostKey: PublicKey, issued: Issued, bound: nat, bound': nat)
    requires Settled(v, m, hostKey, issued, bound) && bound <= bound'
    ensures Settled(v, m, hostKey, issued, bound')
  {
  }

  lemma InEpochGrows(v: View, epoch: nat, key: EpochKey, room: Marks, room': Marks)
    requires InEpoch(v, epoch, key, room) && MarksGrow(room, room')
    ensures InEpoch(v, epoch, key, room')
  {
  }

  // The member at index `i` gets the broadcast unless it is the one left out.
  lemma {:induction false} TopOfSendAll(i: nat, top: nat, members: seq<Member>, skip: Skip, event: Message)
    requires AllApart(members) && i < |members| && event.RoomEvent?
    ensures TopOf(members[i].connection, top, SendAll(members, skip, event)) ==
      if Skipped(skip, members[i]) then top else event.sequence
    decreases |members|
  {
    var c := members[i].connection;
    var before := members[..|members| - 1];
    var m := members[|members| - 1];
    var tail: seq<Action> := if Skipped(skip, m) then [] else [SendTo(m.connection, event)];
    var sent := SendAll(before, skip, event);
    assert SendAll(members, skip, event) == sent + tail;
    if i == |members| - 1 {
      SendAllSkips(c, before, skip, event);
      NothingHasNoEvent(c, sent);
      hide AllApart, SendAll, NothingFor;
      OrderedNothing(c, top, sent);
    } else {
      assert before[i] == members[i] && m.connection != c;
      TopOfSendAll(i, top, before, skip, event);
      hide AllApart, SendAll, TopOf, Ordered;
      OrderedNothing(c, TopOf(c, top, sent), tail);
    }
    hide AllApart, SendAll, TopOf, Ordered, NoEventFor;
    OrderedConcat(c, top, sent, tail);
    if tail != [] { OrderedOne(c, TopOf(c, top, sent), tail[0]); }
  }

  lemma PolicyOrdered(r: Room, r': Room, log: seq<Action>, actions: seq<Action>, open: bool, closed: seq<Action>)
    requires ChannelsOrdered(log, [], r.sequence) && PolicyOk(r, r', actions, open, closed) &&
      AllApart(r'.table.members)
    ensures ChannelsOrdered(log + actions, [], r'.sequence)
    ensures forall c :: TopOf(c, 0, log) <= r.sequence
  {
    var event := SignedEvent(r', PolicyChanged(open));
    forall c ensures Ordered(c, 0, log + actions + []) && TopOf(c, 0, log + actions + []) <= r'.sequence &&
      TopOf(c, 0, log) <= r.sequence {
      assert log + [] == log;
      assert log + actions + [] == log + actions;
      hide ChannelsOrdered, AllApart, SendAll;
      assert Ordered(c, 0, log) && TopOf(c, 0, log) <= r.sequence;
      hide Ordered, TopOf, AllQuiet;
      OrderedConcat(c, 0, log, actions);
      PolicyBatch(c, r, r', actions, open, closed, View(0, 0, None, [], []), TopOf(c, 0, log));
      OrderedSendAll(c, TopOf(c, 0, log), r'.table.members, TheHost, event);
    }
  }

  lemma PolicyKeeps(r: Room, r': Room, log: seq<Action>, actions: seq<Action>, issued: Issued, open: bool,
    closed: seq<Action>)
    requires ChannelInv(r, log, issued) && RoomInv(r') && PolicyOk(r, r', actions, open, closed) && r.deferred == []
    ensures ChannelInv(r', log + actions, issued) && Enrolled(issued, r'.table.members) == issued
  {
    hide RosterInv, EpochInv, MarksInv, MemberInv, TableInv, AllApart, SendAll, TopOf, SignedEvent, AllQuiet;
    RoomTableIsApart(r');
    PolicyOrdered(r, r', log, actions, open, closed);
    SameRoomIssued(r, r', issued);
    SameMembers(r, r');
    forall i | 0 <= i < |r'.table.members| ensures MemberInv(r', log + actions, issued, r'.table.members[i]) {
      PolicyMember(r, r', log, actions, issued, open, closed, i);
    }
  }

  // ---- activation ----------------------------------------------------------------------------------

  lemma ActivateMember(r: Room, r': Room, log: seq<Action>, actions: seq<Action>, issued: Issued, tail: seq<Action>,
    i: nat)
    requires r.nextKey >= 1 && ActivateOk(r, r', actions, tail)
    requires AllDeferredOk(r.deferred, r.hostKey, r.epoch, r.sequence, issued)
    requires i < |r.table.members| && MemberInv(r, log, issued, r.table.members[i])
    requires Ordered(r.table.members[i].connection, 0, log + r.deferred)
    ensures |r'.table.members| == |r.table.members| && MemberInv(r', log + actions, issued, r'.table.members[i])
    ensures (var m := r.table.members[i];
      ViewOf(r.hostKey, m, log + actions) == ReceiveAll(m.connection, ViewOf(r.hostKey, m, log), r.deferred))
  {
    var m := r.table.members[i];
    var c := m.connection;
    var v := ViewOf(r.hostKey, m, log);
    var top := TopOf(c, 0, log);
    SameMembers(r, r');
    assert Plain(r'.table.members[i]) == Plain(m);
    SameView(r.hostKey, m, r'.table.members[i], log + actions);
    ViewAfter(r.hostKey, m, log, actions);
    QuietIsNothing(c, tail);
    hide NothingFor, NoEventFor, ViewOf, Receive;
    ReceiveAllConcat(c, v, r.deferred, tail);
    ReceiveNothing(c, ReceiveAll(c, v, r.deferred), tail);
    OrderedConcat(c, 0, log, r.deferred);
    OrderedConcat(c, 0, log, actions);
    OrderedConcat(c, top, r.deferred, tail);
    OrderedNothing(c, TopOf(c, top, r.deferred), tail);
    hide TopOf, Ordered, Settled;
    FlushKeeps(v, m, r.hostKey, issued, r.deferred, top, r.epoch, CurrentKey(r), r.replay, r.epoch, r.sequence);
    var w := ViewOf(r.hostKey, m, log + actions);
    InEpochGrows(w, r.epoch, CurrentKey(r), r.replay, r'.replay);
    SettledPlain(w, m, r'.table.members[i], r.hostKey, issued, TopOf(c, 0, log + actions) + 1);
  }

  lemma ActivateOrdered(r: Room, r': Room, log: seq<Action>, actions: seq<Action>, tail: seq<Action>)
    requires ChannelsOrdered(log, r.deferred, r.sequence) && ActivateOk(r, r', actions, tail)
    ensures ChannelsOrdered(log + actions, [], r'.sequence)
  {
    forall c ensures Ordered(c, 0, log + actions + []) && TopOf(c, 0, log + actions + []) <= r'.sequence {
      assert log + actions + [] == (log + r.deferred) + tail;
      QuietIsNothing(c, tail);
      hide TopOf, AllQuiet, NothingFor, NoEventFor;
      OrderedConcat(c, 0, log + r.deferred, tail);
      OrderedNothing(c, TopOf(c, 0, log + r.deferred), tail);
    }
  }

  lemma ActivateKeeps(r: Room, r': Room, log: seq<Action>, actions: seq<Action>, issued: Issued, tail: seq<Action>)
    requires ChannelInv(r, log, issued) && RoomInv(r') && ActivateOk(r, r', actions, tail)
    ensures ChannelInv(r', log + actions, issued) && Enrolled(issued, r'.table.members) == issued
  {
    hide RosterInv, EpochInv, MarksInv, MemberInv, TableInv, AllApart, AllQuiet, TopOf;
    RoomTableIsApart(r');
    ActivateOrdered(r, r', log, actions, tail);
    SameRoomIssued(r, r', issued);
    SameMembers(r, r');
    forall i | 0 <= i < |r'.table.members| ensures MemberInv(r', log + actions, issued, r'.table.members[i]) {
      assert Ordered(r.table.members[i].connection, 0, log + r.deferred);
      ActivateMember(r, r', log, actions, issued, tail, i);
    }
  }

  // ---- a new epoch -----------------------------------------------------------------------------------

  lemma WrapsHaveNoEvent(c: ConnectionId, members: seq<Member>, epoch: nat, key: EpochKey)
    ensures NoEventFor(c, WrapAll(members, epoch, key))
  {
  }

  // A member that already read its channel up to epoch `r.epoch` takes the next wrap.
  lemma NextEpochMember(
    r: Room, r': Room, log: seq<Action>, actions: seq<Action>, before: seq<Action>, after: seq<Action>,
    issued: Issued, issued': Issued, m: Member, i: nat)
    requires r.nextKey >= 1 && r.epoch == r.nextKey && NextEpoch(r, r') && AllApart(r'.table.members)
    requires MarksInv(r.replay, r.epoch) && IssuedGrows(issued, issued')
    requires MemberInv(r, log, issued, m) && i < |r'.table.members| && r'.table.members[i] == m
    requires actions == before + WrapAll(r'.table.members, r'.epoch, EpochKey(r.nextKey)) + after
    requires NothingFor(m.connection, before) && NothingFor(m.connection, after)
    ensures MemberInv(r', log + actions, issued', m)
    ensures Rekeyed(ViewOf(r.hostKey, m, log), ViewOf(r.hostKey, m, log + actions))
  {
    var c := m.connection;
    var v := ViewOf(r.hostKey, m, log);
    var top := TopOf(c, 0, log);
    var wraps := WrapAll(r'.table.members, r'.epoch, EpochKey(r.nextKey));
    var w := Receive(v, EpochWrap(r'.epoch, EpochKey(r.nextKey), m.id, m.x25519));
    BatchAround(c, v, top, before, wraps, after);
    ReceiveWraps(i, v, r'.table.members, r'.epoch, EpochKey(r.nextKey));
    WrapsHaveNoEvent(c, r'.table.members, r'.epoch, EpochKey(r.nextKey));
    OrderedNothing(c, top, wraps);
    ViewAfter(r.hostKey, m, log, actions);
    OrderedConcat(c, 0, log, actions);
    hide ViewOf, TopOf, ReceiveAll, WrapAll, NothingFor, NoEventFor, AllApart;
    assert BeforeEpoch(v, r'.epoch);
    SettledGrows(v, m, r.hostKey, issued, issued', top + 1);
    hide Settled, Receive;
    ReceiveWrapKeeps(v, m, r.hostKey, issued', top + 1, r'.epoch, EpochKey(r.nextKey));
  }

  lemma BatchAround(c: ConnectionId, v: View, top: nat, before: seq<Action>, middle: seq<Action>, after: seq<Action>)
    requires NothingFor(c, before) && NothingFor(c, after)
    ensures ReceiveAll(c, v, before + middle + after) == ReceiveAll(c, v, middle)
    ensures TopOf(c, top, before + middle + after) == TopOf(c, top, middle)
  {
    NothingHasNoEvent(c, before);
    NothingHasNoEvent(c, after);
    hide NothingFor, NoEventFor, Receive;
    ReceiveAllConcat(c, v, before + middle, after);
    ReceiveAllConcat(c, v, before, middle);
    ReceiveNothing(c, v, before);
    ReceiveNothing(c, ReceiveAll(c, v, middle), after);
    OrderedConcat(c, top, before + middle, after);
    OrderedConcat(c, top, before, middle);
    OrderedNothing(c, top, before);
    OrderedNothing(c, TopOf(c, top, middle), after);
  }

  // ---- departures ----------------------------------------------------------------------------------------

  lemma {:induction false} GoneQueued(r: Room, ids: seq<MemberId>, kicked: bool, log: seq<Action>, issued: Issued)
    requires AllDeferredOk(r.deferred, r.hostKey, r.epoch, r.sequence, issued)
    requires ChannelsOrdered(log, r.deferred, r.sequence) && AllApart(r.table.members)
    ensures var q := QueueAllGone(r, ids, kicked);
      AllDeferredOk(q.deferred, q.hostKey, q.epoch, q.sequence, issued) && ChannelsOrdered(log, q.deferred, q.sequence)
    decreases |ids|
  {
    if ids != [] {
      var before := ids[..|ids| - 1];
      GoneQueued(r, before, kicked, log, issued);
      QueueAllGoneFrame(r, before, kicked);
      var q := QueueAllGone(r, before, kicked);
      hide AllApart;
      GoneOneQueued(q, ids[|ids| - 1], kicked, log, issued);
    }
  }

  lemma GoneOneQueued(r: Room, id: MemberId, kicked: bool, log: seq<Action>, issued: Issued)
    requires AllDeferredOk(r.deferred, r.hostKey, r.epoch, r.sequence, issued)
    requires ChannelsOrdered(log, r.deferred, r.sequence) && AllApart(r.table.members)
    ensures var q := QueueMemberGone(r, id, kicked);
      AllDeferredOk(q.deferred, q.hostKey, q.epoch, q.sequence, issued) && ChannelsOrdered(log, q.deferred, q.sequence)
  {
    var r1 := r.(sequence := r.sequence + 1);
    var event := SignedEvent(r1, GoneBody(id, kicked));
    hide ChannelsOrdered, AllApart;
    OrderedAppend(log, r.deferred, r.sequence, r.table.members, Nobody, event);
    DeferredGrows(r.deferred, r.hostKey, r.epoch, r.sequence, issued, r.epoch, r1.sequence, issued);
    SendAllDeferredOk(r.table.members, Nobody, event, r.hostKey, r.epoch, r1.sequence, issued);
  }

  lemma DepartOrdered(r: Room, r': Room, log: seq<Action>, actions: seq<Action>, issued: Issued, move: Move)
    requires r.nextKey >= 1 && move.Depart? && DepartOk(r, r', actions, move) && AllApart(r'.table.members)
    requires AllDeferredOk(r.deferred, r.hostKey, r.epoch, r.sequence, issued)
    requires ChannelsOrdered(log, r.deferred, r.sequence)
    ensures AllDeferredOk(r'.deferred, r'.hostKey, r'.epoch, r'.sequence, issued)
    ensures ChannelsOrdered(log + actions, r'.deferred, r'.sequence)
  {
    var b := Begun(r, r');
    forall c ensures NoEventFor(c, actions) {
      QuietIsNothing(c, move.before);
      QuietIsNothing(c, move.after);
      WrapsHaveNoEvent(c, r'.table.members, r'.epoch, EpochKey(r.nextKey));
    }
    hide WrapAll, AllApart, NoEventFor, AllQuiet;
    OrderedInsert(log, actions, r.deferred, r.sequence, b.sequence);
    hide ChannelsOrdered;
    DeferredGrows(r.deferred, r.hostKey, r.epoch, r.sequence, issued, b.epoch, b.sequence, issued);
    GoneQueued(b, move.ids, move.kicked, log + actions, issued);
  }

  lemma DepartKeeps(r: Room, r': Room, log: seq<Action>, actions: seq<Action>, issued: Issued, move: Move)
    requires ChannelInv(r, log, issued) && RoomInv(r') && move.Depart? && DepartOk(r, r', actions, move)
    ensures ChannelInv(r', log + actions, issued) && Enrolled(issued, r'.table.members) == issued
  {
    hide RosterInv, EpochInv, MemberInv, TableInv, AllApart, ChannelsOrdered, AllDeferredOk, QueueAllGone, WrapAll,
      Enrolled, AllQuiet, NothingFor, IssuedInv, MarksInv;
    RoomTableIsApart(r');
    DepartOrdered(r, r', log, actions, issued, move);
    SurvivorsIssued(r.table.members, r'.table.members, move.ids, r.table.nextId, r'.table.nextId, issued);
    forall i | 0 <= i < |r'.table.members| ensures MemberInv(r', log + actions, issued, r'.table.members[i]) {
      var m := r'.table.members[i];
      var k :| 0 <= k < |r.table.members| && r.table.members[k] == m;
      QuietIsNothing(m.connection, move.before);
      QuietIsNothing(m.connection, move.after);
      NextEpochMember(r, r', log, actions, move.before, move.after, issued, issued, m, i);
    }
  }

  lemma SurvivorsIssued(before: seq<Member>, after: seq<Member>, ids: seq<MemberId>, n: MemberId, n': MemberId,
    issued: Issued)
    requires Survivors(before, after, ids) && IssuedInv(before, n, issued) && n <= n'
    ensures IssuedInv(after, n', issued) && (after != [] ==> Enrolled(issued, after) == issued)
  {
    forall i | 0 <= i < |after| ensures after[i].id in issued && issued[after[i].id] == after[i].ed25519 {
      var k :| 0 <= k < |before| && before[k] == after[i];
    }
  }

  // ---- admissions --------------------------------------------------------------------------------------------

  lemma JoinQueued(r: Room, m: Member, log: seq<Action>, issued: Issued)
    requires AllDeferredOk(r.deferred, r.hostKey, r.epoch, r.sequence, issued)
    requires ChannelsOrdered(log, r.deferred, r.sequence) && AllApart(r.table.members)
    requires forall i :: 0 <= i < |r.table.members| ==>
      r.table.members[i].id in issued && issued[r.table.members[i].id] == r.table.members[i].ed25519
    requires m.id in issued && issued[m.id] == m.ed25519
    ensures var q := QueueMemberJoined(r, m);
      AllDeferredOk(q.deferred, q.hostKey, q.epoch, q.sequence, issued) && ChannelsOrdered(log, q.deferred, q.sequence)
  {
    var r1 := r.(sequence := r.sequence + 1);
    var event := SignedEvent(r1, Joined(m.id, m.nickname, m.ed25519));
    var joined := SendAll(r1.table.members, TheMember(m.id), event);
    var r2 := r1.(deferred := r1.deferred + joined, sequence := r1.sequence + 1);
    var snapshot := SignedEvent(r2, Snapshot(SnapshotOf(r2.table.members)));
    hide ChannelsOrdered, AllApart;
    OrderedAppend(log, r.deferred, r.sequence, r.table.members, TheMember(m.id), event);
    OrderedAppendOne(log, r2.deferred, r1.sequence, m.connection, snapshot);
    DeferredGrows(r.deferred, r.hostKey, r.epoch, r.sequence, issued, r.epoch, r2.sequence, issued);
    SendAllDeferredOk(r.table.members, TheMember(m.id), event, r.hostKey, r.epoch, r2.sequence, issued);
    assert DeferredOk(SendTo(m.connection, snapshot), r.hostKey, r.epoch, r2.sequence, issued);
  }

  // A member just admitted starts from an empty session and installs its first key.
  lemma NewMemberReads(r: Room, r': Room, log: seq<Action>, actions: seq<Action>, m: Member)
    requires r.nextKey >= 1 && EnrollOk(r, r', actions, m) && AllApart(r'.table.members)
    ensures ViewOf(r.hostKey, m, log + actions) ==
      Receive(View(r.hostKey, m.x25519, Some(NewChat(r.hostKey, m.x25519, m.id)), [], []),
        EpochWrap(r'.epoch, EpochKey(r.nextKey), m.id, m.x25519))
  {
    var c := m.connection;
    var i := |r.table.members|;
    var wraps := WrapAll(r'.table.members, r'.epoch, EpochKey(r.nextKey));
    var first := [SendTo(c, JoinAccepted(m.id))];
    var notice := [Notify(MemberJoined(m.id, m.nickname))];
    var v0 := ViewOf(r.hostKey, m, log);
    var v1 := Receive(v0, JoinAccepted(m.id));
    assert actions == first + (notice + wraps + []);
    assert r'.table.members[i] == m;
    assert NothingFor(c, notice) && NothingFor(c, []);
    ReceiveKeepsKeys(c, InitialView(r.hostKey, m), log);
    assert v1 == View(r.hostKey, m.x25519, Some(NewChat(r.hostKey, m.x25519, m.id)), [], []);
    hide ViewOf, TopOf, ReceiveAll, WrapAll, AllApart, Receive, NothingFor, EnrollOk;
    ViewAfter(r.hostKey, m, log, actions);
    ReceiveAllConcat(c, v0, first, notice + wraps + []);
    ReceiveOne(c, v0, JoinAccepted(m.id));
    BatchAround(c, v1, 0, notice, wraps, []);
    ReceiveWraps(i, v1, r'.table.members, r'.epoch, EpochKey(r.nextKey));
  }

  lemma NewMember(r: Room, r': Room, log: seq<Action>, actions: seq<Action>, issued': Issued, m: Member)
    requires r.nextKey >= 1 && r.epoch == r.nextKey && EnrollOk(r, r', actions, m) && AllApart(r'.table.members)
    ensures MemberInv(r', log + actions, issued', m)
    ensures var s := ViewOf(r'.hostKey, m, log + actions).chat.value;
      s.members == [] && s.lastRoomSequence == None && ViewOf(r'.hostKey, m, log + actions).refused == []
  {
    NewMemberReads(r, r', log, actions, m);
    hide ViewOf, TopOf, AllApart, WrapAll;
  }

  lemma EnrollOrdered(r: Room, r': Room, log: seq<Action>, actions: seq<Action>, issued: Issued, m: Member)
    requires r.nextKey >= 1 && EnrollOk(r, r', actions, m) && AllApart(r'.table.members)
    requires AllDeferredOk(r.deferred, r.hostKey, r.epoch, r.sequence, issued)
    requires ChannelsOrdered(log, r.deferred, r.sequence)
    requires forall i :: 0 <= i < |r'.table.members| ==>
      r'.table.members[i].id in issued && issued[r'.table.members[i].id] == r'.table.members[i].ed25519
    ensures AllDeferredOk(r'.deferred, r'.hostKey, r'.epoch, r'.sequence, issued)
    ensures ChannelsOrdered(log + actions, r'.deferred, r'.sequence)
  {
    var ms := r'.table.members;
    var b := Begun(r, r');
    assert ms[|ms| - 1] == m;
    forall c ensures NoEventFor(c, actions) { WrapsHaveNoEvent(c, ms, r'.epoch, EpochKey(r.nextKey)); }
    hide WrapAll, AllApart, NoEventFor;
    OrderedInsert(log, actions, r.deferred, r.sequence, b.sequence);
    hide ChannelsOrdered;
    DeferredGrows(r.deferred, r.hostKey, r.epoch, r.sequence, issued, b.epoch, b.sequence, issued);
    JoinQueued(b, m, log + actions, issued);
  }

  lemma EnrollKeeps(r: Room, r': Room, log: seq<Action>, actions: seq<Action>, issued: Issued, m: Member)
    requires ChannelInv(r, log, issued) && RoomInv(r') && EnrollOk(r, r', actions, m)
    ensures ChannelInv(r', log + actions, Enrolled(issued, r'.table.members))
  {
    hide RosterInv, EpochInv, MemberInv, TableInv, AllApart, ChannelsOrdered, AllDeferredOk, MarksInv, NothingFor,
      QueueMemberJoined;
    var issued' := Enrolled(issued, r'.table.members);
    var ms := r'.table.members;
    RoomTableIsApart(r');
    assert ms[|ms| - 1] == m;
    EnrolledGrows(issued, ms);
    assert m.id !in issued;
    assert IssuedInv(ms, r'.table.nextId, issued');
    DeferredGrows(r.deferred, r.hostKey, r.epoch, r.sequence, issued, r.epoch, r.sequence, issued');
    EnrollOrdered(r, r', log, actions, issued', m);
    NewMember(r, r', log, actions, issued', m);
    var before := [SendTo(m.connection, JoinAccepted(m.id)), Notify(MemberJoined(m.id, m.nickname))];
    forall i | 0 <= i < |r.table.members| ensures MemberInv(r', log + actions, issued', ms[i]) {
      assert ms[i] == r.table.members[i];
      OthersApart(ms, i, |ms| - 1);
      AdmissionIsNotFor(ms[i].connection, m);
      assert actions == before + WrapAll(ms, r'.epoch, EpochKey(r.nextKey)) + [];
      NextEpochMember(r, r', log, actions, before, [], issued, issued', ms[i], i);
    }
    assert forall i :: 0 <= i < |ms| ==> i < |r.table.members| || ms[i] == m;
  }

  lemma AdmissionIsNotFor(c: ConnectionId, m: Member)
    requires c != m.connection
    ensures NothingFor(c, [SendTo(m.connection, JoinAccepted(m.id)), Notify(MemberJoined(m.id, m.nickname))]) &&
      NothingFor(c, [])
  {
  }

  lemma OthersApart(members: seq<Member>, i: nat, j: nat)
    requires AllApart(members) && i < |members| && j < |members| && i != j
    ensures members[i].connection != members[j].connection
  {
    assert Apart(members[if i < j then i else j], members[if i < j then j else i]);
  }

  // ---- every event -------------------------------------------------------------------------------------------

  lemma {:induction false} MoveKeeps(r: Room, r': Room, log: seq<Action>, actions: seq<Action>, issued: Issued,
    move: Move)
    requires ChannelInv(r, log, issued) && RoomInv(r') && MoveOk(r, r', actions, move)
    requires move.ChangePolicy? ==> r.deferred == []
    ensures ChannelInv(r', log + actions, Enrolled(issued, r'.table.members))
  {
    hide IdleOk, RelayMoveOk, PolicyOk, ActivateOk, EnrollOk, DepartOk, RoomInv;
    match move
    case Idle => IdleKeeps(r, r', log, actions, issued);
    case RelayChat(_, _, _, _) => RelayKeeps(r, r', log, actions, issued, move);
    case ChangePolicy(open, closed) => PolicyKeeps(r, r', log, actions, issued, open, closed);
    case Activate(tail) => ActivateKeeps(r, r', log, actions, issued, tail);
    case Enroll(m) => EnrollKeeps(r, r', log, actions, issued, m);
    case Depart(_, _, _, _) => DepartKeeps(r, r', log, actions, issued, move);
  }
}
