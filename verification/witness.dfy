// Runs in which promises fail: the conditions under which they hold are not artefacts of proofs.
module Witness {
  import opened Wrappers
  import opened Bytes
  import opened RoomTypes
  import opened Members
  import opened Registry
  import opened Requests
  import opened Replay
  import opened RateLimit
  import opened Actor
  import opened ActorMoves
  import opened Channels
  import opened Runs
  import opened MemberViews
  import opened KeySeparation
  import opened Admissions
  import opened Listed
  import opened Tables
  import opened Sequences
  import ChatCrypto
  import Cbor

  const HOST := HostIdentity(0, Nickname("host", true), 10, 11, 12)
  const LAUNCH := Launch(HOST, 4, 1, 30.0)
  const FIRST := Application(Nickname("first", true), None, 20, 21)
  const SECOND := Application(Nickname("second", true), None, 30, 31)

  function At(event: Event): Input { Input(event, 0.0) }

  // The host opens the room and admits a first guest; both acknowledge.
  const SETTLED: seq<Input> := [
    At(EpochAck(0, 1)), At(ClientConnected(1)), At(PasswordVerified(1)), At(JoinRequested(1, FIRST)),
    At(HostAccepted(0)), At(EpochAck(0, 2)), At(EpochAck(1, 2))]

  // A second guest is admitted; the first is lost before anybody acknowledges the new epoch.
  const OVERTAKEN: seq<Input> := SETTLED + [
    At(ClientConnected(2)), At(PasswordVerified(2)), At(JoinRequested(2, SECOND)), At(HostAccepted(1)),
    At(ConnectionLost(1)), At(EpochAck(0, 4)), At(EpochAck(2, 4))]

  const ASKED := Context(2, 1, 1, MSG_TIMEOUT_REQUEST)
  const MINUTE := Plaintext(ToBigEndian(60, 8), false)
  const ENVELOPE := Envelope(2, 1, 1, ChatCrypto.Seal(EpochKey(1), 20, ASKED, MINUTE))

  // The guest asks for a timeout, and then somebody else asks to join.
  const CROWDED: seq<Input> := SETTLED + [
    At(ChatReceived(1, MSG_TIMEOUT_REQUEST, ENVELOPE)), At(ClientConnected(2)), At(PasswordVerified(2)),
    At(JoinRequested(2, SECOND))]

  // ---- rooms on the way -------------------------------------------------------------------

  const HOST_ENTRY := Entry(false, ActiveMember(HOST_ID))

  function HostEntry(): Member { HostMember(0, HOST.nickname, 10, 11) }

  function FirstGuest(): Member { Member(1, 1, FIRST.nickname, DEFAULT_COLOR, false, 20, 21, 2) }

  function SecondGuest(): Member { Member(2, 2, SECOND.nickname, DEFAULT_COLOR, false, 30, 31, 3) }

  // The room while the epoch of the host alone lasts.
  function Alone(open: bool, entries: Entries, queue: Queue, sequence: nat): Room {
    Room(0, 12, 30.0, if open then Open
      else EpochTransition, true, Table(4, 1, [HostEntry()]), entries, queue, [], None, 1,
      if open then Some(EpochKey(0)) else None,
      if open then None else Some(PendingEpoch(1, EpochKey(0), [HOST_ID], 0.0)),
      sequence, map[], map[], [], 0.0, 1)
  }

  // The room of host and first guest, both having acknowledged.
  function Pair(entries: Entries, queue: Queue, sequence: nat): Room {
    Room(0, 12, 30.0, Open, true, Table(4, 2, [HostEntry(), FirstGuest()]), entries, queue, [], None, 2,
      Some(EpochKey(1)), None, sequence, map[], map[], [], 0.0, 2)
  }

  function PairEntries(): Entries { map[0 := HOST_ENTRY, 1 := Entry(true, ActiveMember(1))] }

  lemma Opens()
    ensures Launched(LAUNCH).room == Alone(false, map[0 := HOST_ENTRY], Queue(1, 0, []), 1)
    ensures Handle(Launched(LAUNCH).room, EpochAck(0, 1), 0.0).0 ==
      Alone(true, map[0 := HOST_ENTRY], Queue(1, 0, []), 1)
  {
    assert IdsOf([HostEntry()]) == [HOST_ID];
    assert Retained(map[], 1) == map[];
    assert [HOST_ID][..0] == [];
  }

  function Applied(): Room {
    Alone(true, map[0 := HOST_ENTRY, 1 := Entry(true, AwaitingDecision(0))], Queue(1, 1, [JoinRequest(0, 1, FIRST)]), 2)
  }

  lemma FirstAsks()
    ensures var r1 := Handle(Alone(true, map[0 := HOST_ENTRY], Queue(1, 0, []), 1), ClientConnected(1), 0.0).0;
      var r2 := Handle(r1, PasswordVerified(1), 0.0).0;
      Handle(r2, JoinRequested(1, FIRST), 0.0).0 == Applied()
  {
  }

  lemma JoinedFrame(r: Room, m: Member)
    ensures var q := QueueMemberJoined(r, m);
      q == r.(sequence := r.sequence + 2, deferred := q.deferred)
  {
    hide SendAll;
  }

  lemma BegunRoom(r: Room)
    ensures var b := BeginEpochTransition(r).0;
      b == r.(epoch := r.epoch + 1, nextKey := r.nextKey + 1, replay := Retained(r.replay, r.epoch + 1),
        sequence := r.sequence + 1, phase := EpochTransition,
        pending := Some(PendingEpoch(r.epoch + 1, EpochKey(r.nextKey), IdsOf(r.table.members), r.now)))
  {
    hide WrapAll;
  }

  // Accepting the one queued request of a room that is Open.
  lemma AcceptsOnly(r: Room, q: JoinRequest, m: Member, table: Table)
    requires r.phase == Open && r.queue.requests == [q] && r.timeouts == [] && r.now == 0.0
    requires AddMember(r.table, q.connection, q.application, r.epoch + 1) == Ok((table, m))
    ensures var admitted := r.(queue := r.queue.(requests := []), table := table,
        entries := WithRole(Registered(r.entries, q.connection), q.connection, ActiveMember(m.id)));
      Handle(r, HostAccepted(q.id), 0.0).0 == QueueMemberJoined(BeginEpochTransition(admitted).0, m)
  {
    hide QueueMemberJoined, BeginEpochTransition, AddMember;
    assert [q][..0] == [];
    assert PositionOfRequest(r.queue.requests, q.id) == Some(0);
    assert PositionOfTimeout(r.timeouts, q.id).None?;
    assert TakeAt(r.queue, 0) == r.queue.(requests := []);
  }

  lemma AddsFirst()
    ensures AddMember(Applied().table, 1, FIRST, 2) == Ok((Table(4, 2, [HostEntry(), FirstGuest()]), FirstGuest()))
  {
    assert Applied().table.members[..0] == [];
    assert [HostEntry()] + [FirstGuest()] == [HostEntry(), FirstGuest()];
  }

  lemma FirstIsAdmitted()
    ensures var r := Handle(Applied(), HostAccepted(0), 0.0).0;
      r == Pair(PairEntries(), Queue(1, 1, []), 5).(phase := EpochTransition, epochKey := Some(EpochKey(0)),
        pending := Some(PendingEpoch(2, EpochKey(1), [HOST_ID, 1], 0.0)), deferred := r.deferred)
  {
    hide QueueMemberJoined, BeginEpochTransition, AddMember;
    AddsFirst();
    var table := Table(4, 2, [HostEntry(), FirstGuest()]);
    AcceptsOnly(Applied(), JoinRequest(0, 1, FIRST), FirstGuest(), table);
    assert WithRole(Registered(Applied().entries, 1), 1, ActiveMember(1)) == PairEntries();
    var admitted := Applied().(queue := Queue(1, 1, []), table := table, entries := PairEntries());
    BegunRoom(admitted);
    assert IdsOf(table.members) == [HOST_ID, 1];
    assert Retained(map[], 2) == map[];
    JoinedFrame(BeginEpochTransition(admitted).0, FirstGuest());
  }

  lemma RetainedOfTwo(y: MemberId, z: MemberId)
    requires y != z
    ensures RetainNot([y, z], y) == [z] && RetainNot([z], z) == []
  {
    assert [y, z][..1] == [y] && [y][..0] == [] && [z][..0] == [];
  }

  // The first of two acknowledgements counts, the second activates.
  lemma TwoAcks(r: Room, c: ConnectionId, d: ConnectionId, y: MemberId, z: MemberId)
    requires r.phase == EpochTransition && r.pending.Some? && r.pending.value.awaiting == [y, z] && y != z
    requires r.now == 0.0 && r.policyOpen
    requires MemberOf(r.entries, c) == Some(y) && MemberOf(r.entries, d) == Some(z)
    ensures var r1 := Handle(r, EpochAck(c, r.pending.value.epoch), 0.0).0;
      var r2 := Handle(r1, EpochAck(d, r.pending.value.epoch), 0.0).0;
      && r1 == r.(pending := Some(r.pending.value.(awaiting := [z])))
      && r2 == r.(pending := None, epochKey := Some(r.pending.value.key), deferred := [], phase := Open)
  {
    hide Handle, RetainNot, MemberOf;
    RetainedOfTwo(y, z);
    var r1 := r.(pending := Some(r.pending.value.(awaiting := [z])));
    AckIsHandled(r, c, r.pending.value.epoch);
    AckIsHandled(r1, d, r.pending.value.epoch);
  }

  lemma AckIsHandled(r: Room, c: ConnectionId, epoch: nat)
    requires r.phase == EpochTransition && r.now == 0.0
    ensures Handle(r, EpochAck(c, epoch), 0.0) == OnEpochAck(r, c, epoch)
  {
    hide OnEpochAck;
    assert r.(now := 0.0) == r;
  }

  lemma PairSettles()
    ensures var r := Handle(Applied(), HostAccepted(0), 0.0).0;
      var r1 := Handle(r, EpochAck(0, 2), 0.0).0;
      Handle(r1, EpochAck(1, 2), 0.0).0 == Pair(PairEntries(), Queue(1, 1, []), 5)
  {
    hide Handle;
    FirstIsAdmitted();
    TwoAcks(Handle(Applied(), HostAccepted(0), 0.0).0, 0, 1, HOST_ID, 1);
  }

  // ---- stepping through a run ------------------------------------------------------------------

  lemma Advance(inputs: seq<Input>, event: Event) returns (s: System)
    ensures s == Run(LAUNCH, inputs + [At(event)]) == Step(Run(LAUNCH, inputs), At(event))
    ensures s.room == Handle(Run(LAUNCH, inputs).room, event, 0.0).0
    ensures s.activated == Run(LAUNCH, inputs).activated +
      (if Activates(Run(LAUNCH, inputs).room, s.room) then {s.room.epoch} else {})
  {
    hide Handle, Enrolled, AdmittedAfter, RelayedIn, LeftBetween, Acknowledged, IdSet;
    s := Step(Run(LAUNCH, inputs), At(event));
    assert (inputs + [At(event)])[..|inputs|] == inputs;
  }

  lemma Prefixes(inputs: seq<Input>)
    ensures forall k :: 0 <= k < |inputs| ==> inputs[..k] + [inputs[k]] == inputs[..k + 1]
    ensures inputs[..0] == [] && inputs[..|inputs|] == inputs
  {
  }

  lemma SettledRoomIs()
    ensures Run(LAUNCH, SETTLED).room == Pair(PairEntries(), Queue(1, 1, []), 5)
  {
    hide Run, Step, Handle, Launched, Alone, Pair;
    Opens();
    FirstAsks();
    PairSettles();
    Prefixes(SETTLED);
    var s1 := Advance(SETTLED[..0], EpochAck(0, 1));
    var s2 := Advance(SETTLED[..1], ClientConnected(1));
    var s3 := Advance(SETTLED[..2], PasswordVerified(1));
    var s4 := Advance(SETTLED[..3], JoinRequested(1, FIRST));
    var s5 := Advance(SETTLED[..4], HostAccepted(0));
    var s6 := Advance(SETTLED[..5], EpochAck(0, 2));
    var s7 := Advance(SETTLED[..6], EpochAck(1, 2));
    NothingRunYet();
  }

  lemma NothingRunYet()
    ensures Run(LAUNCH, []) == Launched(LAUNCH)
  {
  }

  // ---- tables that differ ------------------------------------------------------------------------

  function TripleEntries(): Entries { PairEntries()[2 := Entry(true, ActiveMember(2))] }

  function TripleMembers(): seq<Member> { [HostEntry(), FirstGuest(), SecondGuest()] }

  function SecondApplied(): Room {
    Pair(PairEntries()[2 := Entry(true, AwaitingDecision(1))], Queue(1, 2, [JoinRequest(1, 2, SECOND)]), 6)
  }

  lemma SecondAsks()
    ensures var r1 := Handle(Pair(PairEntries(), Queue(1, 1, []), 5), ClientConnected(2), 0.0).0;
      var r2 := Handle(r1, PasswordVerified(2), 0.0).0;
      Handle(r2, JoinRequested(2, SECOND), 0.0).0 == SecondApplied()
  {
  }

  lemma AddsSecond()
    ensures AddMember(SecondApplied().table, 2, SECOND, 3) == Ok((Table(4, 3, TripleMembers()), SecondGuest()))
  {
    var members := SecondApplied().table.members;
    assert members[..1] == [HostEntry()] && [HostEntry()][..0] == [];
    assert members + [SecondGuest()] == TripleMembers();
  }

  // The room that waits for the second guest, as far as the loss of the first looks at it.
  predicate Awaited(r: Room) {
    && r.phase == EpochTransition && r.pending.Some? && r.epoch == 3 && r.nextKey == 3 && r.policyOpen && r.now == 0.0
    && r.hostConnection == 0 && r.timeouts == [] && r.table.members == TripleMembers() && r.entries == TripleEntries()
  }

  lemma SecondIsAdmitted()
    ensures Awaited(Handle(SecondApplied(), HostAccepted(1), 0.0).0)
  {
    hide QueueMemberJoined, BeginEpochTransition, AddMember;
    AddsSecond();
    var table := Table(4, 3, TripleMembers());
    AcceptsOnly(SecondApplied(), JoinRequest(1, 2, SECOND), SecondGuest(), table);
    assert WithRole(Registered(SecondApplied().entries, 2), 2, ActiveMember(2)) == TripleEntries();
    var admitted := SecondApplied().(queue := Queue(1, 2, []), table := table, entries := TripleEntries());
    BegunRoom(admitted);
    JoinedFrame(BeginEpochTransition(admitted).0, SecondGuest());
  }

  lemma FirstIsLost(r: Room)
    requires Awaited(r)
    ensures var r' := Handle(r, ConnectionLost(1), 0.0).0;
      && r'.phase == EpochTransition && r'.epoch == 4 && r'.policyOpen && r'.now == 0.0
      && r'.pending.Some? && r'.pending.value.epoch == 4 && r'.pending.value.awaiting == [HOST_ID, 2]
      && r'.table.members == [HostEntry(), SecondGuest()]
      && MemberOf(r'.entries, 0) == Some(HOST_ID) && MemberOf(r'.entries, 2) == Some(2)
  {
    hide SendAll, WrapAll, Retained;
    var members := r.table.members;
    assert members[..2] == [HostEntry(), FirstGuest()] && members[..2][..1] == [HostEntry()] &&
      [HostEntry()][..0] == [];
    assert PositionOfId(members, 1) == Some(1);
    assert Without(members, 1) == [HostEntry(), SecondGuest()];
    assert IdsOf([HostEntry(), SecondGuest()]) == [HOST_ID, 2];
  }

  lemma OvertakenInputs()
    ensures LaunchOk(LAUNCH) && AllAdmissible(OVERTAKEN) && OVERTAKEN[..7] == SETTLED
    ensures forall k :: 0 <= k <= |OVERTAKEN| ==> AllAdmissible(OVERTAKEN[..k])
  {
  }

  // The epoch that opened with the second guest waits to be activated.
  lemma SecondIsAwaited()
    ensures var s := Run(LAUNCH, OVERTAKEN[..11]); Awaited(s.room) && 3 !in s.activated
  {
    hide Run, Step, Handle, Launched, Pair, Awaited, TablesInv, AllAdmissible, SecondApplied;
    SettledRoomIs();
    SecondAsks();
    SecondIsAdmitted();
    Prefixes(OVERTAKEN);
    OvertakenInputs();
    var s8 := Advance(OVERTAKEN[..7], ClientConnected(2));
    var s9 := Advance(OVERTAKEN[..8], PasswordVerified(2));
    var s10 := Advance(OVERTAKEN[..9], JoinRequested(2, SECOND));
    var s11 := Advance(OVERTAKEN[..10], HostAccepted(1));
    TablesHold(LAUNCH, OVERTAKEN[..11]);
    PendingIsInactive(s11);
  }

  // It never is.
  lemma OvertakenRoom()
    ensures var s := Run(LAUNCH, OVERTAKEN);
      s.room.phase == Open && s.room.table.members == [HostEntry(), SecondGuest()] && 3 !in s.activated
  {
    hide Run, Step, Handle, Launched, TablesInv, HostEntry, SecondGuest;
    SecondIsAwaited();
    Prefixes(OVERTAKEN);
    FirstIsLost(Run(LAUNCH, OVERTAKEN[..11]).room);
    var s12 := Advance(OVERTAKEN[..11], ConnectionLost(1));
    TwoAcks(s12.room, 0, 2, HOST_ID, 2);
    var s13 := Advance(OVERTAKEN[..12], EpochAck(0, 4));
    var s14 := Advance(OVERTAKEN[..13], EpochAck(2, 4));
  }

  lemma PendingIsInactive(s: System)
    requires TablesInv(s) && Awaited(s.room)
    ensures 3 !in s.activated
  {
    hide RowInv, IdSet;
  }

  // The room is open again and the second guest a member, but its announcement was overtaken:
  // somebody's list is not the host's table.
  lemma {:induction false} OvertakenTablesDiffer()
    ensures LaunchOk(LAUNCH) && AllAdmissible(OVERTAKEN) && Quiescent(Run(LAUNCH, OVERTAKEN).room)
    ensures var s := Run(LAUNCH, OVERTAKEN); exists i :: 0 <= i < |s.room.table.members| && !ListsTable(s, i)
  {
    hide Run, ListsTable, KeyInv, DeparturesCompleted;
    OvertakenInputs();
    OvertakenRoom();
    TablesExactly(LAUNCH, OVERTAKEN);
    KeysHold(LAUNCH, OVERTAKEN);
    NotCompleted(Run(LAUNCH, OVERTAKEN));
  }

  lemma NotCompleted(s: System)
    requires KeyInv(s) && s.room.table.members == [HostEntry(), SecondGuest()] && 3 !in s.activated
    ensures !AdmissionsCompleted(PastOf(s), IdSet(s.room.table.members))
  {
    hide RosterSpans, WrapsSound, WrapsComplete, WrapOrder, RosterKeys;
    var m := s.room.table.members[1];
    assert m.id in IdSet(s.room.table.members);
    assert s.admitted[m.id] == Plain(m);
    assert PastOf(s).Joined(m.id) == 3;
  }

  // ---- more requests than the cap ------------------------------------------------------------------

  function AskedRoom(): Room {
    var r := Pair(PairEntries(), Queue(1, 2, []), 5);
    r.(timeouts := [TimeoutRequest(1, 1, 1, FIRST.nickname, 60)],
       replay := map[(1, 2) := 1], limits := map[1 := Allow(NewBucket(MEMBER_BURST, MEMBER_RATE), 0.0).0])
  }

  lemma MinuteIsSixty()
    ensures |MINUTE.data| == 8 && FromBigEndian(MINUTE.data) == 60
  {
    hide ToBigEndian, FromBigEndian, Pow256;
    Cbor.Widths();
    FromToBigEndian(60, 8);
  }

  lemma GuestAsks()
    ensures Handle(Pair(PairEntries(), Queue(1, 1, []), 5), ChatReceived(1, MSG_TIMEOUT_REQUEST, ENVELOPE), 0.0).0 ==
      AskedRoom()
  {
    hide ToBigEndian, FromBigEndian;
    MinuteIsSixty();
    var r := Pair(PairEntries(), Queue(1, 1, []), 5);
    assert r.table.members[..1] == [HostEntry()] && [HostEntry()][..0] == [];
    assert PositionOfId(r.table.members, 1) == Some(1);
    var r1 := r.(limits := map[1 := Allow(NewBucket(MEMBER_BURST, MEMBER_RATE), 0.0).0]);
    assert OnChatReceived(r, 1, MSG_TIMEOUT_REQUEST, ENVELOPE) == OpenAndRelay(r1, 1, MSG_TIMEOUT_REQUEST, ENVELOPE);
    assert ChatPlaintext(r1, MSG_TIMEOUT_REQUEST, ENVELOPE) == Ok(MINUTE);
  }

  lemma StrangerAsks()
    ensures var r1 := Handle(AskedRoom(), ClientConnected(2), 0.0).0;
      var r2 := Handle(r1, PasswordVerified(2), 0.0).0;
      var r3 := Handle(r2, JoinRequested(2, SECOND), 0.0).0;
      Waiting(r3) == 2 && r3.queue.limit == 1
  {
  }

  // Two requests wait in a room for one.
  lemma {:induction false} CombinedCapFails()
    ensures LaunchOk(LAUNCH) && AllAdmissible(CROWDED)
    ensures Waiting(Run(LAUNCH, CROWDED).room) > Run(LAUNCH, CROWDED).room.queue.limit
  {
    hide Run, Step, Handle, Pair, AskedRoom, Waiting;
    SettledRoomIs();
    GuestAsks();
    StrangerAsks();
    Prefixes(CROWDED);
    assert CROWDED[..7] == SETTLED;
    var s8 := Advance(CROWDED[..7], ChatReceived(1, MSG_TIMEOUT_REQUEST, ENVELOPE));
    var s9 := Advance(CROWDED[..8], ClientConnected(2));
    var s10 := Advance(CROWDED[..9], PasswordVerified(2));
    var s11 := Advance(CROWDED[..10], JoinRequested(2, SECOND));
  }

  // ---- a second epoch that does not start with sequence 1 --------------------------------------

  lemma HostAt(s: System)
    requires s.room.table.members == [HostEntry()] || s.room.table.members == [HostEntry(), FirstGuest()]
    ensures |s.room.table.members| > 0 && s.room.table.members[0].id == HOST_ID &&
      s.room.table.members[0].connection == 0
  {
  }

  lemma FirstEpochRoom()
    ensures Run(LAUNCH, SETTLED[..1]).room == Alone(true, map[0 := HOST_ENTRY], Queue(1, 0, []), 1)
  {
    hide Run, Step, Handle, Launched, Alone;
    Opens();
    Prefixes(SETTLED);
    var s1 := Advance(SETTLED[..0], EpochAck(0, 1));
    NothingRunYet();
  }

  // The host seals one envelope alone in epoch 1 and one beside its guest in epoch 2.
  lemma {:induction false} SecondEpochStartsAtTwo(kind: nat, p: Plaintext)
    ensures LaunchOk(LAUNCH) && AllAdmissible(SETTLED)
    ensures var s := Run(LAUNCH, SETTLED[..1]);
      var s' := Run(LAUNCH, SETTLED);
      && |s.room.table.members| > 0 && ViewAt(s, 0).chat.Some?
      && var sealed := SealedTwice(0, Numbered(ViewAt(s, 0), 0), Since(s, s'), 10, kind, p);
         && sealed.Ok?
         && sealed.value.0.epoch == 1 && sealed.value.0.sequence == 1
         && sealed.value.1.epoch == 2 && sealed.value.1.sequence == 2
  {
    hide Run, ViewAt, SealedTwice, Numbered, Since;
    FirstEpochRoom();
    SettledRoomIs();
    HostAt(Run(LAUNCH, SETTLED[..1]));
    HostAt(Run(LAUNCH, SETTLED));
    assert SETTLED == SETTLED[..1] + SETTLED[1..];
    ChannelSafety(LAUNCH, SETTLED[..1], 0);
    SequenceCarriesOver(LAUNCH, SETTLED[..1], SETTLED[1..], 0, 0, 0, 10, kind, p);
  }
}
