// A participant that reads its channel in order: what it knows and what it refuses.
module Views {
  import opened Wrappers
  import opened RoomTypes
  import opened Members
  import opened Replay
  import opened Actor
  import opened ActorMoves
  import opened Session

  // The public keys of every member that ever was, by id.
  type Issued = map<MemberId, PublicKey>

  // Before its first message: the host participant already lists itself, everybody else
  // waits for an admission.
  function InitialView(hostKey: PublicKey, m: Member): View {
    if m.isHost then
      var chat := NewChat(hostKey, m.x25519, HOST_ID);
      View(hostKey, m.x25519,
        Some(chat.(members := [MemberView(HOST_ID, m.nickname, DEFAULT_COLOR, true, m.ed25519)])), [], [])
    else View(hostKey, m.x25519, None, [], [])
  }

  function ViewOf(hostKey: PublicKey, m: Member, log: seq<Action>): View {
    ReceiveAll(m.connection, InitialView(hostKey, m), log)
  }

  // ---- reading batches -------------------------------------------------------------

  lemma {:induction false} ReceiveAllConcat(c: ConnectionId, v: View, a: seq<Action>, b: seq<Action>)
    ensures ReceiveAll(c, v, a + b) == ReceiveAll(c, ReceiveAll(c, v, a), b)
    decreases |b|
  {
    if b == [] { assert a + b == a; }
    else {
      assert (a + b)[..|a + b| - 1] == a + b[..|b| - 1];
      ReceiveAllConcat(c, v, a, b[..|b| - 1]);
    }
  }

  // Batches that hold nothing for this connection leave the view alone.
  predicate NothingFor(c: ConnectionId, actions: seq<Action>) {
    forall i :: 0 <= i < |actions| ==> Quiet(actions[i]) || (actions[i].SendTo? && actions[i].connection != c)
  }

  lemma {:induction false} ReceiveNothing(c: ConnectionId, v: View, actions: seq<Action>)
    requires NothingFor(c, actions)
    ensures ReceiveAll(c, v, actions) == v
    decreases |actions|
  {
    if actions != [] { ReceiveNothing(c, v, actions[..|actions| - 1]); }
  }

  lemma {:induction false} ReceiveKeepsKeys(c: ConnectionId, v: View, actions: seq<Action>)
    ensures ReceiveAll(c, v, actions).hostKey == v.hostKey && ReceiveAll(c, v, actions).ownKey == v.ownKey
    decreases |actions|
  {
    if actions != [] { ReceiveKeepsKeys(c, v, actions[..|actions| - 1]); }
  }

  lemma ReceiveOne(c: ConnectionId, v: View, message: Message)
    ensures ReceiveAll(c, v, [SendTo(c, message)]) == Receive(v, message)
  {
    assert [SendTo(c, message)][..0] == [];
  }

  lemma {:induction false} SendAllSkips(c: ConnectionId, members: seq<Member>, skip: Skip, message: Message)
    requires forall i :: 0 <= i < |members| && members[i].connection == c ==> Skipped(skip, members[i])
    ensures NothingFor(c, SendAll(members, skip, message))
    decreases |members|
  {
    if members != [] { SendAllSkips(c, members[..|members| - 1], skip, message); }
  }

  lemma {:induction false} ReceiveSendAll(i: nat, v: View, members: seq<Member>, skip: Skip, message: Message)
    requires AllApart(members) && i < |members|
    ensures ReceiveAll(members[i].connection, v, SendAll(members, skip, message)) ==
      if Skipped(skip, members[i]) then v else Receive(v, message)
    decreases |members|
  {
    var c := members[i].connection;
    var before := members[..|members| - 1];
    var m := members[|members| - 1];
    var tail: seq<Action> := if Skipped(skip, m) then [] else [SendTo(m.connection, message)];
    ReceiveAllConcat(c, v, SendAll(before, skip, message), tail);
    if i == |members| - 1 {
      SendAllSkips(c, before, skip, message);
      ReceiveNothing(c, v, SendAll(before, skip, message));
      ReceiveOne(c, v, message);
    } else {
      assert before[i] == members[i];
      ReceiveSendAll(i, v, before, skip, message);
      ReceiveNothing(c, ReceiveAll(c, v, SendAll(before, skip, message)), tail);
    }
  }

  lemma ReceiveWraps(i: nat, v: View, members: seq<Member>, epoch: nat, key: EpochKey)
    requires AllApart(members) && i < |members|
    ensures ReceiveAll(members[i].connection, v, WrapAll(members, epoch, key)) ==
      Receive(v, EpochWrap(epoch, key, members[i].id, members[i].x25519))
  {
    var c := members[i].connection;
    var wraps := WrapAll(members, epoch, key);
    var message := EpochWrap(epoch, key, members[i].id, members[i].x25519);
    var rest := [SendTo(c, message)] + wraps[i + 1..];
    assert wraps == wraps[..i] + rest;
    assert NothingFor(c, wraps[..i]) && NothingFor(c, wraps[i + 1..]);
    hide WrapAll, AllApart, NothingFor, Receive;
    ReceiveAllConcat(c, v, wraps[..i], rest);
    ReceiveNothing(c, v, wraps[..i]);
    ReceiveAllConcat(c, v, [SendTo(c, message)], wraps[i + 1..]);
    ReceiveOne(c, v, message);
    ReceiveNothing(c, Receive(v, message), wraps[i + 1..]);
  }

  // ---- what a member's view always satisfies ------------------------------------------

  predicate MarksBelow(mine: Marks, room: Marks) {
    forall k :: k in mine ==> k in room && mine[k] <= room[k]
  }

  predicate Historical(views: seq<MemberView>, issued: Issued) {
    forall i :: 0 <= i < |views| ==> views[i].id in issued && issued[views[i].id] == views[i].ed25519
  }

  // The only refusals an in-order reader ever makes: an envelope whose sender it does not know
  // yet, or a membership announcement that a later epoch overtook or that repeats an identity.
  predicate FaultsOk(v: View) {
    && (forall i :: 0 <= i < |v.unread| ==> v.unread[i].message.Relayed? && v.unread[i].error == UnknownSender)
    && (forall i :: 0 <= i < |v.refused| ==>
        v.refused[i].message.RoomEvent? && !v.refused[i].message.body.PolicyChanged? &&
        (v.refused[i].error == OldEpoch || v.refused[i].error == InvalidPlaintext))
  }

  predicate LastBelow(s: Chat, bound: nat) {
    s.lastRoomSequence.Some? ==> s.lastRoomSequence.value < bound
  }

  // The view of member `m`, except for the epoch it is in.
  predicate Settled(v: View, m: Member, hostKey: PublicKey, issued: Issued, bound: nat) {
    && v.hostKey == hostKey && v.ownKey == m.x25519 && v.chat.Some?
    && v.chat.value.hostKey == hostKey && v.chat.value.ownKey == m.x25519 && v.chat.value.memberId == m.id
    && Historical(v.chat.value.members, issued)
    && LastBelow(v.chat.value, bound)
    && FaultsOk(v)
  }

  predicate InEpoch(v: View, epoch: nat, key: EpochKey, room: Marks) {
    v.chat.Some? && v.chat.value.epoch == Some((epoch, key)) && MarksBelow(v.chat.value.replay, room)
  }

  predicate BeforeEpoch(v: View, epoch: nat) {
    v.chat.Some? && (v.chat.value.epoch.Some? ==> v.chat.value.epoch.value.0 < epoch)
    && forall k :: k in v.chat.value.replay ==> k.1 != epoch
  }

  lemma {:induction false} ReceiveWrapKeeps(v: View, m: Member, hostKey: PublicKey, issued: Issued, bound: nat,
    epoch: nat, key: EpochKey)
    requires Settled(v, m, hostKey, issued, bound) && BeforeEpoch(v, epoch)
    ensures var w := Receive(v, EpochWrap(epoch, key, m.id, m.x25519));
      && Settled(w, m, hostKey, issued, bound) && InEpoch(w, epoch, key, map[])
      && w.refused == v.refused &&
        w.chat.value == v.chat.value.(epoch := w.chat.value.epoch, replay := w.chat.value.replay)
  {
  }

  // Announcements are signed by the host, speak of real identities and carry fresh sequences.
  predicate EventHistorical(body: EventBody, issued: Issued) {
    && (body.Joined? ==> body.id in issued && issued[body.id] == body.ed25519)
    && (body.Snapshot? ==> forall i :: 0 <= i < |body.members| ==>
        body.members[i].id in issued && issued[body.members[i].id] == body.members[i].ed25519 &&
          ColorFromIndex(body.members[i].color).Some?)
  }

  predicate SignedBy(hostKey: PublicKey, m: Message)
    requires m.RoomEvent?
  {
    m.signature == Signature(hostKey, m.sequence, m.epoch, m.body)
  }

  lemma {:induction false} ReceiveEventKeeps(v: View, m: Member, hostKey: PublicKey, issued: Issued, event: Message,
    epoch: nat, key: EpochKey, room: Marks)
    requires event.RoomEvent? && SignedBy(hostKey, event) && !event.body.PolicyChanged?
    requires EventHistorical(event.body, issued)
    requires Settled(v, m, hostKey, issued, event.sequence) && InEpoch(v, epoch, key, room)
    ensures var w := Receive(v, event);
      && Settled(w, m, hostKey, issued, event.sequence + 1) && InEpoch(w, epoch, key, room)
      && w.chat.value.policyOpen == v.chat.value.policyOpen
  {
    WithoutIdIsFilter(v.chat.value.members, if event.body.Left? || event.body.Kicked? then event.body.id else 0);
  }

  lemma {:induction false} WithoutIdIsFilter(views: seq<MemberView>, id: MemberId)
    ensures forall x :: x in WithoutId(views, id) <==> x in views && x.id != id
    ensures forall issued :: Historical(views, issued) ==> Historical(WithoutId(views, id), issued)
    decreases |views|
  {
    if views != [] {
      WithoutIdIsFilter(views[..|views| - 1], id);
      assert views == views[..|views| - 1] + [views[|views| - 1]];
    }
  }

  lemma {:induction false} ReceivePolicyKeeps(v: View, m: Member, hostKey: PublicKey, issued: Issued, event: Message,
    epoch: nat, key: EpochKey, room: Marks)
    requires event.RoomEvent? && SignedBy(hostKey, event) && event.body.PolicyChanged? && event.epoch == epoch
    requires Settled(v, m, hostKey, issued, event.sequence) && InEpoch(v, epoch, key, room)
    ensures var w := Receive(v, event);
      && Settled(w, m, hostKey, issued, event.sequence + 1) && InEpoch(w, epoch, key, room)
      && w.refused == v.refused && w.chat.value.members == v.chat.value.members
      && w.chat.value.policyOpen == event.body.open
  {
  }

  lemma WithColorKeeps(s: Chat, id: MemberId, color: Color, issued: Issued)
    ensures var w := WithColor(s, id, color);
      w == s.(members := w.members) && Cores(w.members) == Cores(s.members)
      && (Historical(s.members, issued) ==> Historical(w.members, issued))
  {
    var w := WithColor(s, id, color);
    assert forall i :: 0 <= i < |s.members| ==> CoreOfView(w.members[i]) == CoreOfView(s.members[i]);
    assert forall i :: 0 <= i < |s.members| ==>
      w.members[i].id == s.members[i].id && w.members[i].ed25519 == s.members[i].ed25519;
  }

  // A relayed envelope is read as the room read it, unless its sender is not known yet.
  lemma {:induction false} ReceiveRelayedKeeps(
    v: View, m: Member, hostKey: PublicKey, issued: Issued, bound: nat, key: EpochKey, room: Marks,
    kind: nat, e: Envelope, sender: Member, c: ConnectionId, p: Plaintext)
    requires Settled(v, m, hostKey, issued, bound) && InEpoch(v, e.epoch, key, room)
    requires Authored(sender, c, key, kind, e, p) && PayloadOk(kind, p)
    requires kind == MSG_TIMEOUT_CHANGED ==> e.sender == HOST_ID
    requires sender.id in issued && issued[sender.id] == sender.ed25519
    requires Fresh(room, e.sender, e.epoch, e.sequence)
    ensures var w := Receive(v, Relayed(kind, e));
      && Settled(w, m, hostKey, issued, bound)
      && InEpoch(w, e.epoch, key, room[(e.sender, e.epoch) := e.sequence])
      && CoreEqual(v, w) && w.chat.value.policyOpen == v.chat.value.policyOpen
    ensures var r := ReceiveEnvelope(v.chat.value, kind, e).1;
      if PositionOfView(v.chat.value.members, e.sender).Some? then r == Ok(p) else r == Err(UnknownSender)
  {
    var s := v.chat.value;
    var (s1, r) := OpenEnvelope(s, kind, e);
    if PositionOfView(s.members, e.sender).Some? {
      assert r == Ok(p) && s1 == s.(replay := Accepted(s.replay, e.sender, e.epoch, e.sequence));
      if kind == MSG_COLOR { WithColorKeeps(s1, e.sender, ColorPayload(p).value, issued); }
    }
  }

  // ---- the order of announcements ----------------------------------------------------------

  predicate EventFor(c: ConnectionId, a: Action) {
    a.SendTo? && a.connection == c && a.message.RoomEvent?
  }

  predicate DeferredOk(a: Action, hostKey: PublicKey, epoch: nat, sequence: nat, issued: Issued) {
    && a.SendTo? && a.message.RoomEvent? && SignedBy(hostKey, a.message)
    && !a.message.body.PolicyChanged?
    && a.message.sequence <= sequence && a.message.epoch <= epoch
    && EventHistorical(a.message.body, issued)
  }

  predicate AllDeferredOk(deferred: seq<Action>, hostKey: PublicKey, epoch: nat, sequence: nat, issued: Issued) {
    forall i :: 0 <= i < |deferred| ==> DeferredOk(deferred[i], hostKey, epoch, sequence, issued)
  }

  // The last sequence announced on channel `c` after `actions`, starting from `top`.
  function TopOf(c: ConnectionId, top: nat, actions: seq<Action>): nat
    decreases |actions|
  {
    if actions == [] then top else
      var last := actions[|actions| - 1];
      if EventFor(c, last) then last.message.sequence else TopOf(c, top, actions[..|actions| - 1])
  }

  // Every announcement on channel `c` carries a larger sequence than all before it.
  predicate Ordered(c: ConnectionId, top: nat, actions: seq<Action>)
    decreases |actions|
  {
    actions == [] ||
    (var before := actions[..|actions| - 1];
     var last := actions[|actions| - 1];
     Ordered(c, top, before) && (EventFor(c, last) ==> TopOf(c, top, before) < last.message.sequence))
  }

  lemma {:induction false} OrderedConcat(c: ConnectionId, top: nat, a: seq<Action>, b: seq<Action>)
    ensures TopOf(c, top, a + b) == TopOf(c, TopOf(c, top, a), b)
    ensures Ordered(c, top, a + b) <==> Ordered(c, top, a) && Ordered(c, TopOf(c, top, a), b)
    decreases |b|
  {
    if b == [] { assert a + b == a; }
    else {
      assert (a + b)[..|a + b| - 1] == a + b[..|b| - 1];
      OrderedConcat(c, top, a, b[..|b| - 1]);
    }
  }

  predicate NoEventFor(c: ConnectionId, actions: seq<Action>) {
    forall i :: 0 <= i < |actions| ==> !EventFor(c, actions[i])
  }

  lemma {:induction false} OrderedNothing(c: ConnectionId, top: nat, actions: seq<Action>)
    requires NoEventFor(c, actions)
    ensures TopOf(c, top, actions) == top && Ordered(c, top, actions)
    decreases |actions|
  {
    if actions != [] { OrderedNothing(c, top, actions[..|actions| - 1]); }
  }

  lemma OrderedOne(c: ConnectionId, top: nat, a: Action)
    ensures EventFor(c, a) ==>
      TopOf(c, top, [a]) == a.message.sequence && (Ordered(c, top, [a]) <==> top < a.message.sequence)
    ensures !EventFor(c, a) ==> TopOf(c, top, [a]) == top && Ordered(c, top, [a])
  {
    assert [a][..0] == [];
  }

  // A broadcast to members on distinct connections puts at most one message on each channel.
  lemma {:induction false} OrderedSendAll(c: ConnectionId, top: nat, members: seq<Member>, skip: Skip, event: Message)
    requires AllApart(members) && event.RoomEvent? && top < event.sequence
    ensures Ordered(c, top, SendAll(members, skip, event))
    ensures TopOf(c, top, SendAll(members, skip, event)) <= event.sequence
    ensures (forall i :: 0 <= i < |members| ==> members[i].connection != c) ==>
      TopOf(c, top, SendAll(members, skip, event)) == top
    decreases |members|
  {
    if members != [] {
      var before := members[..|members| - 1];
      var m := members[|members| - 1];
      OrderedSendAll(c, top, before, skip, event);
      var tail: seq<Action> := if Skipped(skip, m) then [] else [SendTo(m.connection, event)];
      OrderedConcat(c, top, SendAll(before, skip, event), tail);
      if !Skipped(skip, m) { OrderedOne(c, TopOf(c, top, SendAll(before, skip, event)), SendTo(m.connection, event)); }
    }
  }

  lemma {:induction false} FlushKeeps(
    v: View, m: Member, hostKey: PublicKey, issued: Issued, deferred: seq<Action>, top: nat,
    epoch: nat, key: EpochKey, room: Marks, last: nat, sequence: nat)
    requires AllDeferredOk(deferred, hostKey, last, sequence, issued)
    requires Ordered(m.connection, top, deferred)
    requires Settled(v, m, hostKey, issued, top + 1) && InEpoch(v, epoch, key, room)
    ensures var w := ReceiveAll(m.connection, v, deferred);
      && Settled(w, m, hostKey, issued, TopOf(m.connection, top, deferred) + 1)
      && InEpoch(w, epoch, key, room) && w.chat.value.policyOpen == v.chat.value.policyOpen
    decreases |deferred|
  {
    if deferred != [] {
      var before := deferred[..|deferred| - 1];
      var a := deferred[|deferred| - 1];
      assert DeferredOk(a, hostKey, last, sequence, issued);
      FlushKeeps(v, m, hostKey, issued, before, top, epoch, key, room, last, sequence);
      if a.connection == m.connection {
        var w := ReceiveAll(m.connection, v, before);
        assert Settled(w, m, hostKey, issued, a.message.sequence);
        ReceiveEventKeeps(w, m, hostKey, issued, a.message, epoch, key, room);
      }
    }
  }

  // ---- agreement on the member table --------------------------------------------------------

  // What members must agree on: everything but the colour.
  datatype Core = Core(id: MemberId, nickname: Nickname, isHost: bool, ed25519: PublicKey)

  function CoreOfView(x: MemberView): Core { Core(x.id, x.nickname, x.isHost, x.ed25519) }

  function CoreOfMember(m: Member): Core { Core(m.id, m.nickname, m.isHost, m.ed25519) }

  function Cores(views: seq<MemberView>): (cores: seq<Core>)
    ensures |cores| == |views|
  {
    seq(|views|, i requires 0 <= i < |views| => CoreOfView(views[i]))
  }

  function MemberCores(members: seq<Member>): (cores: seq<Core>)
    ensures |cores| == |members|
  {
    seq(|members|, i requires 0 <= i < |members| => CoreOfMember(members[i]))
  }

  // Two views that differ at most in colours, replay marks and unread envelopes.
  predicate CoreEqual(v: View, w: View) {
    && v.hostKey == w.hostKey && v.ownKey == w.ownKey && v.refused == w.refused
    && v.chat.Some? && w.chat.Some?
    && v.chat.value.hostKey == w.chat.value.hostKey && v.chat.value.memberId == w.chat.value.memberId
    && v.chat.value.epoch == w.chat.value.epoch
    && v.chat.value.lastRoomSequence == w.chat.value.lastRoomSequence
    && Cores(v.chat.value.members) == Cores(w.chat.value.members)
  }

  lemma SameCores(a: seq<MemberView>, b: seq<MemberView>)
    requires Cores(a) == Cores(b)
    ensures |a| == |b|
    ensures forall i :: 0 <= i < |a| ==>
      a[i].id == b[i].id && a[i].nickname == b[i].nickname && a[i].ed25519 == b[i].ed25519
    ensures forall id, nickname, ed25519 :: KnownIdentity(a, id, nickname, ed25519) <==>
      KnownIdentity(b, id, nickname, ed25519)
  {
    assert forall i :: 0 <= i < |a| ==> CoreOfView(a[i]) == Cores(a)[i] == Cores(b)[i] == CoreOfView(b[i]);
  }

  lemma {:induction false} WithoutIdCores(a: seq<MemberView>, b: seq<MemberView>, id: MemberId)
    requires Cores(a) == Cores(b)
    ensures Cores(WithoutId(a, id)) == Cores(WithoutId(b, id))
    decreases |a|
  {
    SameCores(a, b);
    if a != [] {
      var a0 := a[..|a| - 1];
      var b0 := b[..|b| - 1];
      assert Cores(a0) == Cores(a)[..|a| - 1] == Cores(b)[..|b| - 1] == Cores(b0);
      WithoutIdCores(a0, b0, id);
      assert CoreOfView(a[|a| - 1]) == Cores(a)[|a| - 1] == CoreOfView(b[|b| - 1]);
      CoresConcat(WithoutId(a0, id), if a[|a| - 1].id == id then [] else [a[|a| - 1]]);
      CoresConcat(WithoutId(b0, id), if b[|b| - 1].id == id then [] else [b[|b| - 1]]);
    }
  }

  lemma CoresConcat(a: seq<MemberView>, b: seq<MemberView>)
    ensures Cores(a + b) == Cores(a) + Cores(b)
  {
  }

  // Both views refuse an event for the same reason, or both take it.
  lemma HandlerRespectsCores(v: View, w: View, event: Message)
    requires CoreEqual(v, w) && event.RoomEvent?
    ensures HandleRoomEvent(v.chat.value, event).Ok? <==> HandleRoomEvent(w.chat.value, event).Ok?
    ensures HandleRoomEvent(v.chat.value, event).Err? ==>
      HandleRoomEvent(v.chat.value, event).error == HandleRoomEvent(w.chat.value, event).error
  {
    hide SnapshotOk, Cores;
    SameCores(v.chat.value.members, w.chat.value.members);
    hide KnownIdentity;
  }

  lemma MembersRespectCores(v: View, w: View, event: Message)
    requires CoreEqual(v, w) && event.RoomEvent?
    requires HandleRoomEvent(v.chat.value, event).Ok? && HandleRoomEvent(w.chat.value, event).Ok?
    ensures Cores(HandleRoomEvent(v.chat.value, event).value.members) ==
      Cores(HandleRoomEvent(w.chat.value, event).value.members)
  {
    hide SnapshotOk, Cores, KnownIdentity;
    var a := v.chat.value.members;
    var b := w.chat.value.members;
    if event.body.Left? || event.body.Kicked? { WithoutIdCores(a, b, event.body.id); }
    if event.body.Joined? {
      var x := [MemberView(event.body.id, event.body.nickname, DEFAULT_COLOR, false, event.body.ed25519)];
      CoresConcat(a, x);
      CoresConcat(b, x);
    }
  }

  lemma EventRespectsCores(v: View, w: View, event: Message)
    requires CoreEqual(v, w) && event.RoomEvent?
    ensures CoreEqual(Receive(v, event), Receive(w, event))
  {
    HandlerRespectsCores(v, w, event);
    if HandleRoomEvent(v.chat.value, event).Ok? { MembersRespectCores(v, w, event); }
    hide SnapshotOk, Cores, KnownIdentity, WithoutId;
  }

  lemma {:induction false} FlushRespectsCores(c: ConnectionId, v: View, w: View, deferred: seq<Action>)
    requires CoreEqual(v, w)
    requires forall i :: 0 <= i < |deferred| ==> deferred[i].SendTo? && deferred[i].message.RoomEvent?
    ensures CoreEqual(ReceiveAll(c, v, deferred), ReceiveAll(c, w, deferred))
    decreases |deferred|
  {
    if deferred != [] {
      var before := deferred[..|deferred| - 1];
      FlushRespectsCores(c, v, w, before);
      if deferred[|deferred| - 1].connection == c {
        EventRespectsCores(ReceiveAll(c, v, before), ReceiveAll(c, w, before), deferred[|deferred| - 1].message);
      }
    }
  }

  // After the announcements still deferred, `v` lists exactly the members of the table and
  // has refused no signed event.
  predicate Agrees(v: View, c: ConnectionId, deferred: seq<Action>, members: seq<Member>) {
    var w := ReceiveAll(c, v, deferred);
    w.chat.Some? && Cores(w.chat.value.members) == MemberCores(members) && w.refused == []
  }

  lemma {:induction false} JoinedIsInstalled(v: View, event: Message, members: seq<Member>, m: Member)
    requires event.RoomEvent? && v.chat.Some? && SignedBy(v.chat.value.hostKey, event)
    requires event.body == Joined(m.id, m.nickname, m.ed25519) && m.nickname.valid && m.id != HOST_ID && !m.isHost
    requires AllApart(members + [m]) && Cores(v.chat.value.members) == MemberCores(members)
    requires v.chat.value.epoch.Some? && v.chat.value.epoch.value.0 == event.epoch
    requires LastBelow(v.chat.value, event.sequence)
    ensures var w := Receive(v, event);
      w.chat.Some? && Cores(w.chat.value.members) == MemberCores(members + [m]) && w.refused == v.refused
  {
    var views := v.chat.value.members;
    forall i | 0 <= i < |views|
      ensures views[i].id != m.id && views[i].nickname != m.nickname && views[i].ed25519 != m.ed25519 {
      assert CoreOfView(views[i]) == Cores(views)[i] == MemberCores(members)[i] == CoreOfMember(members[i]);
      assert Apart((members + [m])[i], (members + [m])[|members|]);
    }
    CoresConcat(views, [MemberView(m.id, m.nickname, DEFAULT_COLOR, false, m.ed25519)]);
    assert MemberCores(members + [m]) == MemberCores(members) + [CoreOfMember(m)];
  }

  lemma {:induction false} GoneIsInstalled(v: View, event: Message, members: seq<Member>, i: nat)
    requires event.RoomEvent? && v.chat.Some? && SignedBy(v.chat.value.hostKey, event)
    requires i < |members| && (event.body == Left(members[i].id) || event.body == Kicked(members[i].id))
    requires AllApart(members) && Cores(v.chat.value.members) == MemberCores(members)
    requires v.chat.value.epoch.Some? && v.chat.value.epoch.value.0 == event.epoch
    requires LastBelow(v.chat.value, event.sequence)
    ensures var w := Receive(v, event);
      w.chat.Some? && Cores(w.chat.value.members) == MemberCores(Without(members, i)) && w.refused == v.refused
  {
    var views := v.chat.value.members;
    forall k | 0 <= k < |views| ensures views[k].id == members[i].id <==> k == i {
      assert CoreOfView(views[k]) == Cores(views)[k] == MemberCores(members)[k] == CoreOfMember(members[k]);
    }
    WithoutIdAt(views, i, members[i].id);
    assert Cores(views[..i] + views[i + 1..]) == Cores(views)[..i] + Cores(views)[i + 1..];
    assert MemberCores(Without(members, i)) == MemberCores(members)[..i] + MemberCores(members)[i + 1..];
  }

  lemma {:induction false} WithoutIdAt(views: seq<MemberView>, i: nat, id: MemberId)
    requires i < |views| && forall k :: 0 <= k < |views| ==> (views[k].id == id <==> k == i)
    ensures WithoutId(views, id) == views[..i] + views[i + 1..]
    decreases |views|
  {
    var before := views[..|views| - 1];
    if i == |views| - 1 {
      WithoutIdNone(before, id);
    } else {
      WithoutIdAt(before, i, id);
      assert views[..i] + views[i + 1..] == before[..i] + before[i + 1..] + [views[|views| - 1]];
    }
  }

  lemma {:induction false} WithoutIdNone(views: seq<MemberView>, id: MemberId)
    requires forall k :: 0 <= k < |views| ==> views[k].id != id
    ensures WithoutId(views, id) == views
    decreases |views|
  {
    if views != [] {
      WithoutIdNone(views[..|views| - 1], id);
      assert views == views[..|views| - 1] + [views[|views| - 1]];
    }
  }

  lemma {:induction false} OneHost(members: seq<Member>)
    requires members != [] && members[0].id == HOST_ID && members[0].isHost
    requires forall i :: 1 <= i < |members| ==> members[i].id != HOST_ID
    ensures HostCount(SnapshotOf(members)) == 1
    decreases |members|
  {
    var entries := SnapshotOf(members);
    var before := members[..|members| - 1];
    assert entries[..|entries| - 1] == SnapshotOf(before);
    if |members| > 1 { OneHost(before); }
    else { assert HostCount(entries[..0]) == 0; }
  }

  lemma {:induction false} TableSnapshotOk(t: Table, host: ConnectionId, i: nat)
    requires TableInv(t, host) && i < |t.members| && t.limit <= MAX_MEMBERS
    ensures SnapshotOk(SnapshotOf(t.members), t.members[i].id)
  {
    var entries := SnapshotOf(t.members);
    OneHost(t.members);
    assert entries[i].id == t.members[i].id;
    forall k | 0 <= k < |entries|
      ensures SnapshotEntryOk(entries, k) && (entries[k].isHost <==> entries[k].id == HOST_ID) {
      assert entries[k] == SnapshotEntry(t.members[k]);
      forall j | 0 <= j < k ensures entries[j].id != entries[k].id && entries[j].nickname != entries[k].nickname &&
        entries[j].ed25519 != entries[k].ed25519 {
        assert Apart(t.members[j], t.members[k]);
      }
    }
  }

  lemma {:induction false} SnapshotIsInstalled(v: View, event: Message, t: Table, host: ConnectionId, i: nat)
    requires event.RoomEvent? && v.chat.Some? && SignedBy(v.chat.value.hostKey, event)
    requires TableInv(t, host) && i < |t.members| && t.limit <= MAX_MEMBERS && v.chat.value.memberId == t.members[i].id
    requires event.body == Snapshot(SnapshotOf(t.members))
    requires v.chat.value.epoch.Some? && v.chat.value.epoch.value.0 == event.epoch
    requires LastBelow(v.chat.value, event.sequence)
    ensures var w := Receive(v, event);
      w.chat.Some? && Cores(w.chat.value.members) == MemberCores(t.members) && w.refused == v.refused
  {
    TableSnapshotOk(t, host, i);
    hide SnapshotOk, TableInv;
    var entries := SnapshotOf(t.members);
    var views := Receive(v, event).chat.value.members;
    assert forall k :: 0 <= k < |views| ==> CoreOfView(views[k]) == CoreOfMember(t.members[k]);
    assert Cores(views) == MemberCores(t.members);
  }
}
