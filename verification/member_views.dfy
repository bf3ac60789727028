// What a member knows at any point of any run.
module MemberViews {
  import opened Wrappers
  import opened RoomTypes
  import opened Members
  import opened Registry
  import opened Replay
  import opened RateLimit
  import opened ChatCrypto
  import opened Actor
  import opened ActorInvariants
  import opened ActorMoves
  import opened Session
  import opened Views
  import opened Channels
  import opened Agreement
  import opened Restarting
  import opened Runs

  // The view of the member at index `i`: its channel read in order from the start.
  function ViewAt(s: System, i: nat): View
    requires i < |s.room.table.members|
  {
    ViewOf(s.room.hostKey, s.room.table.members[i], s.log)
  }

  // Every run, restarts included: each member is in the epoch of the room under its key, knows
  // the join policy, and never refused a wrap, a policy event or a relayed envelope for its
  // epoch or for its sequence.
  lemma {:induction false} ChannelSafety(launch: Launch, inputs: seq<Input>, i: nat)
    requires LaunchOk(launch) && AllAdmissible(inputs)
    requires i < |Run(launch, inputs).room.table.members|
    ensures var s := Run(launch, inputs);
      var m := s.room.table.members[i];
      var v := ViewAt(s, i);
      && s.room.nextKey >= 1
      && v.chat.Some? && v.chat.value.memberId == m.id
      && v.chat.value.epoch == Some((s.room.epoch, CurrentKey(s.room)))
      && (m.id != HOST_ID ==> v.chat.value.policyOpen == s.room.policyOpen)
      && FaultsOk(v)
  {
    hide ViewOf, TopOf, RosterInv, EpochInv, MarksInv, IssuedInv, AllDeferredOk, ChannelsOrdered, Run, AgreementInv,
      HostMisses, HostAwaits;
    RunHolds(launch, inputs);
    var s := Run(launch, inputs);
    assert MemberInv(s.room, s.log, s.issued, s.room.table.members[i]);
  }

  // The signed events on every channel carry strictly increasing sequences, those still
  // deferred included.
  lemma {:induction false} SequencesIncrease(launch: Launch, inputs: seq<Input>, c: ConnectionId, i: nat, j: nat)
    requires LaunchOk(launch) && AllAdmissible(inputs)
    requires var s := Run(launch, inputs);
      var sent := s.log + s.room.deferred;
      i < j < |sent| && EventFor(c, sent[i]) && EventFor(c, sent[j])
    ensures var s := Run(launch, inputs);
      var sent := s.log + s.room.deferred;
      sent[i].message.sequence < sent[j].message.sequence <= s.room.sequence
  {
    hide RoomInv, Run, MemberInv, IssuedInv, AllDeferredOk, AgreementInv, HostMisses, HostAwaits;
    RunHolds(launch, inputs);
    var s := Run(launch, inputs);
    OrderedIsIncreasing(c, s.log + s.room.deferred, i, j);
  }

  lemma {:induction false} OrderedIsIncreasing(c: ConnectionId, sent: seq<Action>, i: nat, j: nat)
    requires Ordered(c, 0, sent) && i < |sent| && EventFor(c, sent[i])
    requires i < j < |sent| && EventFor(c, sent[j])
    ensures sent[i].message.sequence < sent[j].message.sequence <= TopOf(c, 0, sent)
    decreases |sent|
  {
    var before := sent[..|sent| - 1];
    if j < |sent| - 1 {
      assert before[i] == sent[i] && before[j] == sent[j];
      OrderedIsIncreasing(c, before, i, j);
    } else {
      assert before[i] == sent[i];
      TopIsLast(c, before, i);
    }
  }

  lemma {:induction false} TopIsLast(c: ConnectionId, sent: seq<Action>, i: nat)
    requires Ordered(c, 0, sent) && i < |sent| && EventFor(c, sent[i])
    ensures sent[i].message.sequence <= TopOf(c, 0, sent)
    decreases |sent|
  {
    if i < |sent| - 1 {
      assert sent[..|sent| - 1][i] == sent[i];
      TopIsLast(c, sent[..|sent| - 1], i);
    }
  }

  // ---- the member table --------------------------------------------------------------------

  predicate Quiescent(r: Room) { r.phase == Open || r.phase == Locked }

  // The member at index `i` lists the same members as the host, colours aside, and has refused
  // nothing.
  predicate InStep(s: System, i: nat)
    requires i < |s.room.table.members|
  {
    var v := ViewAt(s, i);
    v.chat.Some? && Cores(v.chat.value.members) == MemberCores(s.room.table.members) && v.refused == []
  }

  // Every member agrees with the host whenever the room is Open or Locked, if no removal
  // restarted a pending transition.
  lemma {:induction false} TablesAgree(launch: Launch, inputs: seq<Input>, i: nat)
    requires LaunchOk(launch) && AllAdmissible(inputs)
    requires var s := Run(launch, inputs);
      s.restarts == 0 && Quiescent(s.room) && i < |s.room.table.members|
    ensures InStep(Run(launch, inputs), i)
  {
    hide ViewOf, RosterInv, EpochInv, MarksInv, Run, ChannelsOrdered, AllDeferredOk, MemberInv, IssuedInv, HostMisses,
      HostAwaits, MemberCores, Cores;
    RunHolds(launch, inputs);
    var s := Run(launch, inputs);
    SettledRoom(s.room);
    assert MemberAgrees(s.room, s.log, s.room.table.members[i]);
  }

  lemma SettledRoom(r: Room)
    requires RoomInv(r) && Quiescent(r)
    ensures r.pending.None? && r.deferred == [] && r.table.members != []
  {
  }

  // A run in which nobody refused a control message is a run without restarts, and conversely:
  // after any restart the host itself has refused a membership announcement. The lists can agree
  // all the same; Tables says exactly when.
  lemma {:induction false} RefusalsExactly(launch: Launch, inputs: seq<Input>)
    requires LaunchOk(launch) && AllAdmissible(inputs)
    requires Quiescent(Run(launch, inputs).room)
    ensures var s := Run(launch, inputs);
      s.restarts == 0 <==> forall i :: 0 <= i < |s.room.table.members| ==> ViewAt(s, i).refused == []
  {
    hide ViewOf, RosterInv, EpochInv, MarksInv, Run, ChannelsOrdered, AllDeferredOk, MemberInv, IssuedInv, HostAwaits,
      MemberCores, Cores, AgreementInv;
    RunHolds(launch, inputs);
    var s := Run(launch, inputs);
    SettledRoom(s.room);
    if s.restarts == 0 {
      forall i | 0 <= i < |s.room.table.members| ensures ViewAt(s, i).refused == [] { TablesAgree(launch, inputs, i); }
    } else {
      assert ViewAt(s, 0).refused != [];
    }
  }

  // ---- relayed envelopes -------------------------------------------------------------------

  lemma {:induction false} SendAllOnly(members: seq<Member>, skip: Skip, message: Message, i: nat)
    requires i < |SendAll(members, skip, message)|
    ensures var a := SendAll(members, skip, message)[i]; a.SendTo? && a.message == message
    ensures exists k ::
      0 <= k < |members| && SendAll(members, skip, message)[i].connection == members[k].connection &&
      !Skipped(skip, members[k])
    decreases |members|
  {
    var before := members[..|members| - 1];
    if i < |SendAll(before, skip, message)| {
      SendAllOnly(before, skip, message, i);
      var k :| 0 <= k < |before| && SendAll(before, skip, message)[i].connection == before[k].connection &&
        !Skipped(skip, before[k]);
      assert members[k] == before[k];
    }
  }

  predicate IsRelay(a: Action) { a.SendTo? && a.message.Relayed? }

  // Only one kind of move passes envelopes on, and it passes on one envelope.
  lemma {:induction false} OnlyRelaysRelay(r: Room, r': Room, actions: seq<Action>, issued: Issued, move: Move, i: nat)
    requires r.nextKey >= 1 && MoveOk(r, r', actions, move) && i < |actions| && IsRelay(actions[i])
    requires AllDeferredOk(r.deferred, r.hostKey, r.epoch, r.sequence, issued)
    ensures move.RelayChat? && actions[i].message == Relayed(move.kind, move.envelope)
    ensures exists k :: 0 <= k < |r'.table.members| && actions[i].connection == r'.table.members[k].connection != move.c
  {
    hide SameRoom, NextEpoch, Survivors, SendAll, RelayOk, QueueMemberJoined, QueueAllGone, SignedEvent, OneLeft;
    match move
    case Idle => assert false;
    case RelayChat(c, kind, e, _) => SendAllOnly(r'.table.members, TheConnection(c), Relayed(kind, e), i);
    case ChangePolicy(open, closed) =>
      PolicyNeverRelays(r', closed, open, i);
    case Activate(tail) =>
      assert false;
    case Enroll(m) => assert false;
    case Depart(_, _, before, after) => assert false;
  }

  lemma PolicyNeverRelays(r: Room, closed: seq<Action>, open: bool, i: nat)
    requires AllQuiet(closed)
    ensures var actions := closed + SendAll(r.table.members, TheHost, SignedEvent(r, PolicyChanged(open))) +
      [Notify(JoinPolicyNotice(open))];
      i < |actions| ==> !IsRelay(actions[i])
  {
    hide SendAll;
    var sent := SendAll(r.table.members, TheHost, SignedEvent(r, PolicyChanged(open)));
    if |closed| <= i < |closed| + |sent| {
      SendAllOnly(r.table.members, TheHost, SignedEvent(r, PolicyChanged(open)), i - |closed|);
    }
  }

  // A member of the room wrote this envelope, on connection `c`, and sealed `p` in it.
  predicate WrittenBy(s: System, k: nat, kind: nat, e: Envelope, p: Plaintext)
    requires k < |s.room.table.members| && s.room.nextKey >= 1
  {
    Authored(s.room.table.members[k], s.room.table.members[k].connection, CurrentKey(s.room), kind, e, p)
  }

  // Whoever gets a relayed envelope reads in it what its author sealed, except a member that
  // does not know the author yet; and in a room that is Open or Locked and never restarted a
  // transition everybody knows everybody.
  lemma {:induction false} RelayedIsRead(launch: Launch, inputs: seq<Input>, input: Input, i: nat, kind: nat,
    e: Envelope)
    returns (k: nat, p: Plaintext)
    requires LaunchOk(launch) && AllAdmissible(inputs) && Admissible(input.event)
    requires var s := Run(launch, inputs);
      i < |s.room.table.members| &&
      SendTo(s.room.table.members[i].connection, Relayed(kind, e)) in Sent(Handle(s.room, input.event, input.now).1)
    ensures var s := Run(launch, inputs);
      && s.room.nextKey >= 1 && k < |s.room.table.members| && k != i && WrittenBy(s, k, kind, e, p)
      && ViewAt(s, i).chat.Some?
      && var r := ReceiveEnvelope(ViewAt(s, i).chat.value, kind, e).1;
         && (r == Ok(p) || r == Err(UnknownSender))
         && (Quiescent(s.room) && s.restarts == 0 ==> r == Ok(p))
  {
    hide ViewOf, TopOf, RosterInv, EpochInv, MarksInv, AllApart, ChannelsOrdered, Run, AgreementInv, HostMisses,
      HostAwaits, SameRoom, Handle, MoveOk, Settled, PayloadOk, ReceiveEnvelope, AllDeferredOk, SendAll, Step;
    RunHolds(launch, inputs);
    var s := Run(launch, inputs);
    var m := s.room.table.members[i];
    var actions := Sent(Handle(s.room, input.event, input.now).1);
    var move := ChannelStep(s, input);
    var j :| 0 <= j < |actions| && actions[j] == SendTo(m.connection, Relayed(kind, e));
    OnlyRelaysRelay(s.room, Step(s, input).room, actions, s.issued, move, j);
    UnfoldRelay(s.room, Step(s, input).room, actions, move);
    assert MemberInv(s.room, s.log, s.issued, m);
    k :| 0 <= k < |s.room.table.members| &&
      Authored(s.room.table.members[k], move.c, CurrentKey(s.room), kind, e, move.plaintext);
    p := move.plaintext;
    ReceiveRelayedKeeps(ViewAt(s, i), m, s.room.hostKey, s.issued, TopOf(m.connection, 0, s.log) + 1,
      CurrentKey(s.room), s.room.replay,
      kind, e, s.room.table.members[k], move.c, p);
    if Quiescent(s.room) && s.restarts == 0 {
      TablesAgree(launch, inputs, i);
      ListedById(ViewAt(s, i).chat.value.members, s.room.table.members, k);
    }
  }

  lemma ListedById(views: seq<MemberView>, members: seq<Member>, k: nat)
    requires Cores(views) == MemberCores(members) && k < |members|
    ensures PositionOfView(views, members[k].id).Some?
  {
    assert CoreOfView(views[k]) == Cores(views)[k] == MemberCores(members)[k] == CoreOfMember(members[k]);
  }

  lemma UnfoldRelay(r: Room, r': Room, actions: seq<Action>, move: Move)
    requires r.nextKey >= 1 && MoveOk(r, r', actions, move) && move.RelayChat?
    ensures RelayOk(r, r', move)
    ensures forall i :: 0 <= i < |actions| && IsRelay(actions[i]) ==> actions[i].connection != move.c
  {
    hide SendAll, SameRoom, RelayOk;
    forall i | 0 <= i < |actions| && IsRelay(actions[i]) ensures actions[i].connection != move.c {
      SendAllOnly(r'.table.members, TheConnection(move.c), Relayed(move.kind, move.envelope), i);
    }
  }

  // ---- what a member seals is relayed -----------------------------------------------------------

  lemma RelayAccepts(r: Room, c: ConnectionId, kind: nat, e: Envelope, p: Plaintext)
    requires PayloadOk(kind, p) && (kind == MSG_TIMEOUT_CHANGED ==> e.sender == HOST_ID)
    ensures var (r', reply) := RelayPlaintext(r, c, kind, e, p);
      reply == Ok(SendAll(r'.table.members, TheConnection(c), Relayed(kind, e)))
  {
  }

  lemma OpenAccepts(r: Room, i: nat, kind: nat, e: Envelope, p: Plaintext)
    requires RoomInv(r) && r.phase != Destroyed && i < |r.table.members| && e.sender == r.table.members[i].id
    requires e.epoch == r.epoch &&
      e.sealed == Seal(CurrentKey(r), r.table.members[i].ed25519, Context(r.epoch, e.sender, e.sequence, kind), p)
    requires PayloadOk(kind, p) && (kind == MSG_TIMEOUT_CHANGED ==> e.sender == HOST_ID)
    requires Fresh(r.replay, e.sender, r.epoch, e.sequence)
    ensures var (r', reply) := OpenAndRelay(r, r.table.members[i].connection, kind, e);
      reply == Ok(SendAll(r'.table.members, TheConnection(r.table.members[i].connection), Relayed(kind, e)))
  {
    hide TableInv, LinkInv, QueueInv, LimitsInv, MarksInv, EpochInv, RelayPlaintext, SendAll, PayloadOk, ChatKey;
    ChatKeyIsCurrent(r);
    FoundAtIndex(r.table, r.hostConnection, i);
    assert ChatPlaintext(r, kind, e) == Ok(p);
    RelayAccepts(r.(replay := Accepted(r.replay, e.sender, r.epoch, e.sequence)), r.table.members[i].connection, kind,
      e, p);
  }

  lemma MemberIsRegistered(r: Room, i: nat)
    requires RoomInv(r) && i < |r.table.members|
    ensures MemberOf(r.entries, r.table.members[i].connection) == Some(r.table.members[i].id)
    ensures PositionOfId(r.table.members, r.table.members[i].id) == Some(i)
  {
    hide TableInv, QueueInv, LimitsInv, MarksInv, EpochInv, HasMember, HasRequest;
    FoundAtIndex(r.table, r.hostConnection, i);
  }

  lemma ChatAccepts(r: Room, i: nat, kind: nat, e: Envelope, p: Plaintext)
    requires RoomInv(r) && r.phase != Destroyed && i < |r.table.members| && e.sender == r.table.members[i].id
    requires e.epoch == r.epoch &&
      e.sealed == Seal(CurrentKey(r), r.table.members[i].ed25519, Context(r.epoch, e.sender, e.sequence, kind), p)
    requires PayloadOk(kind, p) && (kind == MSG_TIMEOUT_CHANGED ==> e.sender == HOST_ID)
    requires Fresh(r.replay, e.sender, r.epoch, e.sequence)
    requires RateLimited(kind) ==> Allow(BucketOf(r, e.sender), r.now).1
    ensures var (r', reply) := OnChatReceived(r, r.table.members[i].connection, kind, e);
      reply == Ok(SendAll(r'.table.members, TheConnection(r.table.members[i].connection), Relayed(kind, e)))
  {
    hide RoomInv, SendAll, OpenAndRelay, Allow, Fresh, Seal;
    MemberIsRegistered(r, i);
    PayloadKinds(kind, p);
    if RateLimited(kind) {
      var bucket := Allow(BucketOf(r, e.sender), r.now).0;
      LimitUpdateKeeps(r, e.sender, bucket);
      OpenAccepts(r.(limits := r.limits[e.sender := bucket]), i, kind, e, p);
    } else {
      OpenAccepts(r, i, kind, e, p);
    }
  }

  lemma PayloadKinds(kind: nat, p: Plaintext)
    requires PayloadOk(kind, p)
    ensures RateLimited(kind) || kind == MSG_TIMEOUT_CHANGED
  {
  }

  // In any run, what a member seals with its own session, under a sequence it has not used and
  // within its rate limit, is relayed to every other member: a transition stops only those who
  // have not acknowledged it.
  lemma {:induction false} SealedIsRelayed(launch: Launch, inputs: seq<Input>, i: nat, kind: nat, p: Plaintext,
    sequence: nat, now: Time) returns (e: Envelope)
    requires LaunchOk(launch) && AllAdmissible(inputs) && i < |Run(launch, inputs).room.table.members|
    requires var s := Run(launch, inputs);
      var m := s.room.table.members[i];
      && s.room.phase != Destroyed && (s.room.phase == EpochTransition ==> HasAckedPending(s.room, m.connection))
      && PayloadOk(kind, p) && (kind == MSG_TIMEOUT_CHANGED ==> m.id == HOST_ID)
      && Fresh(s.room.replay, m.id, s.room.epoch, sequence + 1)
      && (RateLimited(kind) ==> Allow(BucketOf(s.room, m.id), now).1)
    ensures var s := Run(launch, inputs);
      var m := s.room.table.members[i];
      var chat := ViewAt(s, i).chat;
      && chat.Some?
      && SealNext(chat.value.(senderSequence := sequence), m.ed25519, kind, p) ==
        Ok((chat.value.(senderSequence := sequence + 1), e))
      && var (r', reply) := Handle(s.room, ChatReceived(m.connection, kind, e), now);
         reply == Ok(SendAll(r'.table.members, TheConnection(m.connection), Relayed(kind, e)))
  {
    hide ViewOf, RoomInv, Run, RunInv, Allow, SendAll, PayloadOk, OnChatReceived;
    ChannelSafety(launch, inputs, i);
    RunHolds(launch, inputs);
    var s := Run(launch, inputs);
    RunRoom(s);
    var m := s.room.table.members[i];
    var chat := ViewAt(s, i).chat.value;
    e := SealNext(chat.(senderSequence := sequence), m.ed25519, kind, p).value.1;
    RoomAt(s.room, now);
    ChatAccepts(s.room.(now := now), i, kind, e, p);
  }
}
