// A sender's sequence over a whole run: epochs come and go, the count goes on.
module Sequences {
  import opened Wrappers
  import opened RoomTypes
  import opened Members
  import opened Actor
  import opened ActorInvariants
  import opened ActorMoves
  import opened Session
  import opened Views
  import opened Channels
  import opened Runs
  import opened Agreement
  import opened Restarting
  import opened MemberViews
  import opened KeySeparation
  import opened Flooding

  // ---- one channel -----------------------------------------------------------------------

  // The same participant, having sealed `n` envelopes.
  function Numbered(v: View, n: nat): View {
    if v.chat.None? then v else v.(chat := Some(v.chat.value.(senderSequence := n)))
  }

  predicate IsAdmission(c: ConnectionId, a: Action) { a.SendTo? && a.connection == c && a.message.JoinAccepted? }

  predicate NoAdmission(c: ConnectionId, actions: seq<Action>) {
    forall i :: 0 <= i < |actions| ==> !IsAdmission(c, actions[i])
  }

  lemma EventNumbered(s: Chat, event: Message, n: nat)
    requires event.RoomEvent?
    ensures HandleRoomEvent(s.(senderSequence := n), event) ==
      match HandleRoomEvent(s, event) case Ok(t) => Ok(t.(senderSequence := n)) case Err(error) => Err(error)
  {
    hide SnapshotError, KnownIdentity, WithoutId;
  }

  lemma EnvelopeNumbered(s: Chat, kind: nat, e: Envelope, n: nat)
    ensures var (t, r) := ReceiveEnvelope(s, kind, e);
      ReceiveEnvelope(s.(senderSequence := n), kind, e) == (t.(senderSequence := n), r)
  {
  }

  // No message but an admission looks at the count or changes it.
  lemma MessageNumbered(v: View, m: Message, n: nat)
    requires !m.JoinAccepted?
    ensures Receive(Numbered(v, n), m) == Numbered(Receive(v, m), n)
  {
    hide HandleRoomEvent, ReceiveEnvelope;
    if v.chat.Some? {
      if m.RoomEvent? { EventNumbered(v.chat.value, m, n); }
      if m.Relayed? { EnvelopeNumbered(v.chat.value, m.kind, m.envelope, n); }
    }
  }

  lemma {:induction false} ReadingKeepsCount(c: ConnectionId, v: View, actions: seq<Action>, n: nat)
    requires NoAdmission(c, actions)
    ensures ReceiveAll(c, Numbered(v, n), actions) == Numbered(ReceiveAll(c, v, actions), n)
    decreases |actions|
  {
    hide Receive, Numbered;
    if actions != [] {
      var before := actions[..|actions| - 1];
      var a := actions[|actions| - 1];
      ReadingKeepsCount(c, v, before, n);
      assert !IsAdmission(c, a);
      if a.SendTo? && a.connection == c { MessageNumbered(ReceiveAll(c, v, before), a.message, n); }
    }
  }

  // ---- runs ----------------------------------------------------------------------------------

  // A connection is admitted only while it is nobody's.
  lemma MoveAdmits(r: Room, r': Room, actions: seq<Action>, issued: Issued, move: Move, i: nat)
    requires r.nextKey >= 1 && MoveOk(r, r', actions, move) && AllApart(r'.table.members)
    requires AllDeferredOk(r.deferred, r.hostKey, r.epoch, r.sequence, issued)
    requires i < |r'.table.members| && r'.table.members[i].id < r.table.nextId
    ensures NoAdmission(r'.table.members[i].connection, actions)
  {
    hide SameRoom, NextEpoch, Survivors, SendAll, RelayOk, QueueMemberJoined, QueueAllGone, SignedEvent, OneLeft,
      AllApart;
    var c := r'.table.members[i].connection;
    match move
    case Idle =>
      assert NoAdmission(c, actions);
    case RelayChat(origin, kind, e, _) =>
      BroadcastAdmitsNobody(r'.table.members, TheConnection(origin), Relayed(kind, e));
      assert NoAdmission(c, actions);
    case ChangePolicy(open, closed) => PolicyAdmitsNobody(r', closed, open);
    case Activate(tail) =>
      assert NoAdmission(c, actions);
    case Enroll(m) =>
      var last := |r.table.members|;
      assert r'.table.members[last] == m;
      OthersApart(r'.table.members, i, last);
      assert NoAdmission(c, actions);
    case Depart(_, _, before, after) =>
      assert NoAdmission(c, actions);
  }

  lemma BroadcastAdmitsNobody(members: seq<Member>, skip: Skip, message: Message)
    requires !message.JoinAccepted?
    ensures forall c :: NoAdmission(c, SendAll(members, skip, message))
  {
    hide SendAll;
    forall c, i | 0 <= i < |SendAll(members, skip, message)|
      ensures !IsAdmission(c, SendAll(members, skip, message)[i]) {
      SendAllOnly(members, skip, message, i);
    }
  }

  lemma PolicyAdmitsNobody(r: Room, closed: seq<Action>, open: bool)
    requires AllQuiet(closed)
    ensures forall c ::
      NoAdmission(c, closed + SendAll(r.table.members, TheHost, SignedEvent(r, PolicyChanged(open))) +
        [Notify(JoinPolicyNotice(open))])
  {
    hide SendAll, IsAdmission;
    var event := SignedEvent(r, PolicyChanged(open));
    var sent := SendAll(r.table.members, TheHost, event);
    BroadcastAdmitsNobody(r.table.members, TheHost, event);
    forall c, k | 0 <= k < |closed| ensures !IsAdmission(c, closed[k]) { QuietAdmitsNobody(c, closed[k]); }
    forall c ensures NoAdmission(c, closed + sent + [Notify(JoinPolicyNotice(open))]) {
      assert NoAdmission(c, sent);
      QuietAdmitsNobody(c, Notify(JoinPolicyNotice(open)));
    }
  }

  lemma QuietAdmitsNobody(c: ConnectionId, a: Action)
    requires Quiet(a)
    ensures !IsAdmission(c, a)
  {
  }

  // The member with this id, at index `i` before the step and `j` after it.
  lemma StepCarries(s: System, input: Input, i: nat, j: nat, n: nat)
    requires RunInv(s) && KeyInv(s) && Admissible(input.event) && i < |s.room.table.members|
    requires var s' := Step(s, input);
      j < |s'.room.table.members| && s'.room.table.members[j].id == s.room.table.members[i].id
    ensures var s' := Step(s, input);
      var c := s.room.table.members[i].connection;
      var actions := s'.log[|s.log|..];
      && s'.log == s.log + actions && s'.room.table.members[j].connection == c
      && ReceiveAll(c, Numbered(ViewAt(s, i), n), actions) == Numbered(ViewAt(s', j), n)
  {
    hide RosterInv, EpochInv, MarksInv, MoveOk, Handle, ViewOf, AllApart, TableInv, HostMisses, HostAwaits,
      ChannelsOrdered, MemberInv, IssuedInv, Step, NoAdmission, Numbered, KeyInv, AllDeferredOk;
    var s' := Step(s, input);
    var move := ChannelStep(s, input);
    KeyStep(s, input);
    StepSends(s, input);
    var actions := s'.log[|s.log|..];
    RoomTableIsApart(s'.room);
    SamePerson(s, s', i, j);
    var x := s.room.table.members[i];
    MoveAdmits(s.room, s'.room, actions, s.issued, move, j);
    ReadingKeepsCount(x.connection, ViewAt(s, i), actions, n);
    StepKeepsHostKey(s.room, s'.room, actions, move);
    ViewAfter(s.room.hostKey, x, s.log, actions);
    SameView(s.room.hostKey, x, s'.room.table.members[j], s'.log);
  }

  lemma StepKeepsHostKey(r: Room, r': Room, actions: seq<Action>, move: Move)
    requires r.nextKey >= 1 && MoveOk(r, r', actions, move)
    ensures r'.hostKey == r.hostKey
  {
    hide MarksGrow, Survivors, SendAll, WrapAll, QueueMemberJoined, QueueAllGone, Roster, AllQuiet, RelayOk, OneLeft;
  }

  lemma StepSends(s: System, input: Input)
    ensures var s' := Step(s, input);
      && s'.log == s.log + Sent(Handle(s.room, input.event, input.now).1)
      && s'.log[|s.log|..] == Sent(Handle(s.room, input.event, input.now).1)
      && s'.admitted == AdmittedAfter(s.admitted, s'.room.table.members)
  {
    hide Handle, Enrolled, AdmittedAfter, RelayedIn, LeftBetween, Acknowledged, IdSet;
  }

  // An id names one person for good.
  lemma SamePerson(s: System, s': System, i: nat, j: nat)
    requires KeyInv(s) && KeyInv(s') && s'.admitted == AdmittedAfter(s.admitted, s'.room.table.members)
    requires i < |s.room.table.members| && j < |s'.room.table.members|
    requires s'.room.table.members[j].id == s.room.table.members[i].id
    ensures Plain(s'.room.table.members[j]) == Plain(s.room.table.members[i])
    ensures s'.room.table.members[j].connection == s.room.table.members[i].connection
    ensures s'.room.table.members[j].id < s.room.table.nextId
  {
    hide RosterSpans, WrapsSound, WrapsComplete, WrapOrder, RosterKeys, IdSet;
    assert s.admitted[s.room.table.members[i].id] == Plain(s.room.table.members[i]);
    assert s'.admitted[s'.room.table.members[j].id] == Plain(s'.room.table.members[j]);
    assert Plain(s'.room.table.members[j]).connection == s'.room.table.members[j].connection;
  }

  lemma IndexOf(members: seq<Member>, id: MemberId) returns (i: nat)
    requires id in IdSet(members)
    ensures i < |members| && members[i].id == id
  {
    i :| 0 <= i < |members| && members[i].id == id;
  }

  // Who is a member at the end was one all along.
  lemma WasMember(s: System, input: Input, id: MemberId)
    requires RunInv(s) && id < s.room.table.nextId && id in IdSet(Step(s, input).room.table.members)
    ensures id in IdSet(s.room.table.members)
  {
    hide RoomInv, Handle, IdSet, ChannelInv, AgreementInv, HostMisses, HostAwaits, Step;
    RunRoom(s);
    StepRoom(s, input);
    if id !in IdSet(s.room.table.members) { GoneStays(s.room, input.event, input.now, id); }
  }

  lemma {:induction false} RunCarries(launch: Launch, inputs: seq<Input>, more: seq<Input>, i: nat, j: nat, n: nat)
    requires LaunchOk(launch) && AllAdmissible(inputs + more) && i < |Run(launch, inputs).room.table.members|
    requires var s' := Run(launch, inputs + more);
      j < |s'.room.table.members| && s'.room.table.members[j].id == Run(launch, inputs).room.table.members[i].id
    ensures var s := Run(launch, inputs);
      var s' := Run(launch, inputs + more);
      && |s.log| <= |s'.log| && s'.log[..|s.log|] == s.log
      && s.room.table.nextId <= s'.room.table.nextId
      && s'.room.table.members[j].connection == s.room.table.members[i].connection
      && ReceiveAll(s.room.table.members[i].connection, Numbered(ViewAt(s, i), n), s'.log[|s.log|..]) ==
        Numbered(ViewAt(s', j), n)
    decreases |more|
  {
    hide RunInv, KeyInv, Step, Numbered, ViewAt, ReceiveAll, IdSet, AllApart;
    PrefixAdmissible(inputs, more);
    var s := Run(launch, inputs);
    var x := s.room.table.members[i];
    RunHolds(launch, inputs);
    if more == [] {
      assert inputs + more == inputs;
      OneIndex(s, i, j);
      assert s.log[|s.log|..] == [];
      NothingRead(x.connection, Numbered(ViewAt(s, i), n));
    } else {
      var before := more[..|more| - 1];
      var last := more[|more| - 1];
      assert (inputs + more)[..|inputs + more| - 1] == inputs + before && inputs + more == inputs + before + [last];
      PrefixAdmissible(inputs + before, [last]);
      var s1 := Run(launch, inputs + before);
      RunHolds(launch, inputs + before);
      KeysHold(launch, inputs + before);
      IdsBelow(s, i);
      NextIdKept(launch, inputs, before);
      WasThere(s1, last, x.id, j);
      var k := IndexOf(s1.room.table.members, x.id);
      RunCarries(launch, inputs, before, i, k, n);
      StepCarries(s1, last, k, j, n);
      RunRoom(s1);
      StepRoom(s1, last);
      NextIdGrows(s1.room, last.event, last.now);
      JoinSuffixes(x.connection, Numbered(ViewAt(s, i), n), s.log, s1.log, Run(launch, inputs + more).log);
    }
  }

  lemma WasThere(s: System, input: Input, id: MemberId, j: nat)
    requires RunInv(s) && id < s.room.table.nextId
    requires j < |Step(s, input).room.table.members| && Step(s, input).room.table.members[j].id == id
    ensures id in IdSet(s.room.table.members)
  {
    hide Step, RunInv;
    assert id in IdSet(Step(s, input).room.table.members);
    WasMember(s, input, id);
  }

  lemma IdsBelow(s: System, i: nat)
    requires RunInv(s) && i < |s.room.table.members|
    ensures s.room.table.members[i].id < s.room.table.nextId
  {
    hide ChannelsOrdered, AllDeferredOk, IssuedInv, MemberInv, LinkInv, QueueInv, LimitsInv, MarksInv, EpochInv,
      AllApart;
  }

  lemma {:induction false} NextIdKept(launch: Launch, inputs: seq<Input>, more: seq<Input>)
    requires LaunchOk(launch) && AllAdmissible(inputs + more)
    ensures Run(launch, inputs).room.table.nextId <= Run(launch, inputs + more).room.table.nextId
    decreases |more|
  {
    hide RunInv, Step, RoomInv, Handle;
    if more == [] { assert inputs + more == inputs; }
    else {
      var before := more[..|more| - 1];
      var last := more[|more| - 1];
      assert (inputs + more)[..|inputs + more| - 1] == inputs + before && inputs + more == inputs + before + [last];
      PrefixAdmissible(inputs + before, [last]);
      NextIdKept(launch, inputs, before);
      RunHolds(launch, inputs + before);
      RunRoom(Run(launch, inputs + before));
      StepRoom(Run(launch, inputs + before), last);
      NextIdGrows(Run(launch, inputs + before).room, last.event, last.now);
    }
  }

  lemma OneIndex(s: System, i: nat, j: nat)
    requires RunInv(s) && i < |s.room.table.members| && j < |s.room.table.members|
    requires s.room.table.members[i].id == s.room.table.members[j].id
    ensures i == j
  {
    hide RoomInv, ChannelsOrdered, AllDeferredOk, IssuedInv, MemberInv, AgreementInv, HostMisses, HostAwaits, TableInv,
      AllApart;
    RunRoom(s);
    RoomTableIsApart(s.room);
    SameIdSameMember(s.room.table.members, i, j);
  }

  lemma NothingRead(c: ConnectionId, v: View)
    ensures ReceiveAll(c, v, []) == v
  {
  }

  lemma JoinSuffixes(c: ConnectionId, v: View, a: seq<Action>, b: seq<Action>, d: seq<Action>)
    requires |a| <= |b| && b[..|a|] == a && |b| <= |d| && d[..|b|] == b
    ensures |a| <= |d| && d[..|a|] == a &&
      ReceiveAll(c, v, d[|a|..]) == ReceiveAll(c, ReceiveAll(c, v, b[|a|..]), d[|b|..])
  {
    hide ReceiveAll;
    assert d[|a|..] == b[|a|..] + d[|b|..];
    ReceiveAllConcat(c, v, b[|a|..], d[|b|..]);
  }

  // What reached a member between two moments of a run.
  function Since(s: System, s': System): seq<Action> {
    if |s.log| <= |s'.log| then s'.log[|s.log|..] else []
  }

  // The next two envelopes of a member that seals one, reads on to a later moment and seals
  // another.
  function SealedTwice(c: ConnectionId, v: View, between: seq<Action>, signer: PublicKey, kind: nat, p: Plaintext)
    : Result<(Envelope, Envelope), ChatError>
    requires v.chat.Some?
  {
    match SealNext(v.chat.value, signer, kind, p)
    case Err(error) => Err(error)
    case Ok((chat, first)) =>
      var later := ReceiveAll(c, v.(chat := Some(chat)), between);
      if later.chat.None? then Err(NoEpochKey)
      else match SealNext(later.chat.value, signer, kind, p)
        case Err(error) => Err(error)
        case Ok((_, second)) => Ok((first, second))
  }

  // However many epochs pass between two envelopes of a member, the second has the sequence after
  // the first: an epoch does not start the count again. `n` envelopes went before.
  lemma {:induction false} SequenceCarriesOver(launch: Launch, inputs: seq<Input>, more: seq<Input>, i: nat, j: nat,
    n: nat,
    signer: PublicKey, kind: nat, p: Plaintext)
    requires LaunchOk(launch) && AllAdmissible(inputs + more) && i < |Run(launch, inputs).room.table.members|
    requires var s' := Run(launch, inputs + more);
      j < |s'.room.table.members| && s'.room.table.members[j].id == Run(launch, inputs).room.table.members[i].id
    ensures var s := Run(launch, inputs);
      var s' := Run(launch, inputs + more);
      var v := Numbered(ViewAt(s, i), n);
      && v.chat.Some?
      && var sealed := SealedTwice(s.room.table.members[i].connection, v, Since(s, s'), signer, kind, p);
         && sealed.Ok?
         && sealed.value.0.epoch == s.room.epoch && sealed.value.0.sequence == n + 1
         && sealed.value.1.epoch == s'.room.epoch && sealed.value.1.sequence == n + 2
  {
    hide Run, ViewAt, ReceiveAll, IdSet, FaultsOk;
    PrefixAdmissible(inputs, more);
    RunCarries(launch, inputs, more, i, j, n + 1);
    ChannelSafety(launch, inputs, i);
    ChannelSafety(launch, inputs + more, j);
    var v := ViewAt(Run(launch, inputs), i);
    assert Numbered(v, n).(chat := Some(SealNext(Numbered(v, n).chat.value, signer, kind, p).value.0)) ==
      Numbered(v, n + 1);
  }
}
