// Whole runs: a room that starts and handles any number of events, with everything it sent so
// far and a history of what happened.
module Runs {
  import opened RoomTypes
  import opened Members
  import opened Registry
  import opened Replay
  import opened Actor
  import opened ActorInvariants
  import opened ActorMoves
  import opened Session
  import opened Views
  import opened Channels
  import opened Agreement
  import opened Restarting

  datatype Input = Input(event: Event, now: Time)

  datatype Launch = Launch(host: HostIdentity, memberLimit: nat, requestLimit: nat, acknowledgeWithin: Time)

  // `restarts` counts the removals that restarted a pending transition, `roster` says whom each
  // epoch was opened for, `admitted` remembers every member that ever was, `acked` who
  // acknowledged the current epoch, `marks` is a replay tracker that never forgets, `relayed`
  // lists the (sender, epoch, sequence) triples of the envelopes passed on, `activated` the
  // epochs that everybody acknowledged, and `left` the epoch each departure began.
  datatype System = System(
    room: Room, log: seq<Action>, issued: Issued, restarts: nat,
    roster: map<nat, set<MemberId>>, admitted: map<MemberId, Member>, acked: set<MemberId>,
    marks: Marks, relayed: set<(MemberId, nat, nat)>, activated: set<nat>, left: map<MemberId, nat>)

  predicate LaunchOk(launch: Launch) { 1 <= launch.memberLimit <= MAX_MEMBERS && launch.host.nickname.valid }

  function Launched(launch: Launch): System {
    var (r, actions) := Started(launch.host, launch.memberLimit, launch.requestLimit, launch.acknowledgeWithin);
    System(r, actions, map[HOST_ID := launch.host.ed25519], 0, map[r.epoch := IdSet(r.table.members)],
      AdmittedAfter(map[], r.table.members), {}, r.replay, {}, {}, map[])
  }

  function AdmittedAfter(admitted: map<MemberId, Member>, members: seq<Member>): map<MemberId, Member> {
    if members == [] || members[|members| - 1].id in admitted then admitted
    else admitted[members[|members| - 1].id := Plain(members[|members| - 1])]
  }

  // The member whose acknowledgement of the current epoch this event is.
  function Acknowledged(r: Room, event: Event): set<MemberId> {
    if event.EpochAck? && event.epoch == r.epoch && MemberOf(r.entries, event.connection).Some?
    then {MemberOf(r.entries, event.connection).value} else {}
  }

  function Triple(e: Envelope): (MemberId, nat, nat) { (e.sender, e.epoch, e.sequence) }

  function RelayedIn(actions: seq<Action>): set<(MemberId, nat, nat)> {
    set i | 0 <= i < |actions| && actions[i].SendTo? &&
      actions[i].message.Relayed? :: Triple(actions[i].message.envelope)
  }

  predicate Activates(r: Room, r': Room) {
    r'.epoch == r.epoch && r.pending.Some? && r'.pending.None? && r'.phase != Destroyed
  }

  function LeftBetween(before: seq<Member>, after: seq<Member>, epoch: nat): map<MemberId, nat> {
    map id | id in IdSet(before) - IdSet(after) :: epoch
  }

  function Step(s: System, input: Input): System {
    var (r, reply) := Handle(s.room, input.event, input.now);
    var actions := Sent(reply);
    var next := r.epoch > s.room.epoch;
    System(r, s.log + actions, Enrolled(s.issued, r.table.members),
      s.restarts + (if Restarts(s.room, r) then 1 else 0),
      if next then s.roster[r.epoch := IdSet(r.table.members)] else s.roster,
      AdmittedAfter(s.admitted, r.table.members),
      (if next then {} else s.acked) + Acknowledged(s.room, input.event),
      s.marks + r.replay, s.relayed + RelayedIn(actions),
      s.activated + (if Activates(s.room, r) then {r.epoch} else {}),
      s.left + LeftBetween(s.room.table.members, r.table.members, r.epoch))
  }

  function Run(launch: Launch, inputs: seq<Input>): System
    decreases |inputs|
  {
    if inputs == [] then Launched(launch)
    else Step(Run(launch, inputs[..|inputs| - 1]), inputs[|inputs| - 1])
  }

  predicate AllAdmissible(inputs: seq<Input>) {
    forall i :: 0 <= i < |inputs| ==> Admissible(inputs[i].event)
  }

  // ---- what every run keeps -------------------------------------------------------------

  ghost predicate RunInv(s: System) {
    && ChannelInv(s.room, s.log, s.issued)
    && HostAwaits(s.room)
    && (s.restarts == 0 ==> AgreementInv(s.room, s.log))
    && (s.restarts > 0 ==> HostMisses(s.room, s.log))
  }

  lemma SettledHasNothingDeferred(r: Room)
    requires RoomInv(r) && r.phase != Destroyed && r.pending.None?
    ensures r.deferred == []
  {
  }

  lemma ChannelStep(s: System, input: Input) returns (move: Move)
    requires RunInv(s) && Admissible(input.event)
    ensures var s' := Step(s, input);
      && RoomInv(s.room) && RoomInv(s'.room)
      && MoveOk(s.room, s'.room, Sent(Handle(s.room, input.event, input.now).1), move)
      && ChannelInv(s'.room, s'.log, s'.issued)
    ensures s.room.phase == Destroyed ==> move.Idle? && Step(s, input).room == s.room.(now := input.now)
    ensures s.room.phase != Destroyed && s.room.pending.None? ==> s.room.deferred == []
  {
    hide RosterInv, EpochInv, MarksInv, MemberInv, MoveOk, AgreementInv, HostAwaits, HostMisses, AllDeferredOk,
      ChannelsOrdered, IssuedInv, Handle;
    var r := s.room;
    var (r', reply) := Handle(r, input.event, input.now);
    HandleKeeps(r, input.event, input.now);
    move := HandleMoves(r, input.event, input.now);
    if r.phase != Destroyed && r.pending.None? { SettledHasNothingDeferred(r); }
    PolicyIsSettled(r, r', Sent(reply), move);
    MoveKeeps(r, r', s.log, Sent(reply), s.issued, move);
  }

  lemma PolicyIsSettled(r: Room, r': Room, actions: seq<Action>, move: Move)
    requires RoomInv(r) && MoveOk(r, r', actions, move) && (r.phase == Destroyed ==> move.Idle?)
    ensures move.ChangePolicy? ==> r.deferred == []
  {
    hide SameRoom, RosterInv;
  }

  lemma StepKeeps(s: System, input: Input)
    requires RunInv(s) && Admissible(input.event)
    ensures RunInv(Step(s, input))
  {
    hide RoomInv, ChannelInv, MoveOk, AgreementInv, HostAwaits, HostMisses, Handle;
    var s' := Step(s, input);
    var actions := Sent(Handle(s.room, input.event, input.now).1);
    var move := ChannelStep(s, input);
    MoveAwaits(s.room, s'.room, s.log, actions, move);
    HostConnectionOf(s'.room);
    if s'.restarts == 0 { MoveAgrees(s.room, s'.room, s.log, actions, s.issued, move); }
    else { MoveMisses(s.room, s'.room, s.log, actions, s.issued, move); }
  }

  lemma LaunchedHolds(launch: Launch)
    requires LaunchOk(launch)
    ensures RunInv(Launched(launch))
  {
    hide ViewOf, RosterInv, MarksInv, EpochInv, WrapAll, MemberInv, ChannelInv, Agrees, RoomInv;
    var s := Launched(launch);
    var m := s.room.table.members[0];
    StartedHolds(launch.host, launch.memberLimit, launch.requestLimit, launch.acknowledgeWithin);
    FirstView(launch);
    FirstChannel(launch);
    assert forall i :: 0 <= i < |s.room.table.members| ==> s.room.table.members[i] == m;
  }

  // The host participant reads the key of epoch 1 and lists itself.
  lemma FirstView(launch: Launch)
    requires LaunchOk(launch)
    ensures var s := Launched(launch);
      var m := s.room.table.members[0];
      && MemberInv(s.room, s.log, s.issued, m)
      && Agrees(ViewOf(s.room.hostKey, m, s.log), m.connection, s.room.deferred, s.room.table.members)
  {
    var s := Launched(launch);
    var m := s.room.table.members[0];
    var v := InitialView(s.room.hostKey, m);
    var wraps := WrapAll(s.room.table.members, 1, EpochKey(0));
    var first := [Notify(InvitationRotated)];
    assert s.log == first + wraps;
    assert NothingFor(m.connection, first);
    ReceiveAllConcat(m.connection, v, first, wraps);
    ReceiveNothing(m.connection, v, first);
    ReceiveWraps(0, v, s.room.table.members, 1, EpochKey(0));
    var w := Receive(v, EpochWrap(1, EpochKey(0), m.id, m.x25519));
    assert ViewOf(s.room.hostKey, m, s.log) == w;
    assert Cores(w.chat.value.members) == MemberCores(s.room.table.members);
  }

  lemma FirstChannel(launch: Launch)
    requires LaunchOk(launch) && RoomInv(Launched(launch).room)
    requires var s := Launched(launch); MemberInv(s.room, s.log, s.issued, s.room.table.members[0])
    ensures var s := Launched(launch); ChannelInv(s.room, s.log, s.issued)
  {
    hide RosterInv, EpochInv, MarksInv, MemberInv;
    var s := Launched(launch);
    forall c ensures Ordered(c, 0, s.log + []) && TopOf(c, 0, s.log + []) <= s.room.sequence {
      assert s.log + [] == s.log;
      assert NoEventFor(c, s.log);
      OrderedNothing(c, 0, s.log);
    }
  }

  lemma {:induction false} RunHolds(launch: Launch, inputs: seq<Input>)
    requires LaunchOk(launch) && AllAdmissible(inputs)
    ensures RunInv(Run(launch, inputs))
    decreases |inputs|
  {
    hide RunInv, Step, Launched;
    if inputs == [] { LaunchedHolds(launch); }
    else {
      RunHolds(launch, inputs[..|inputs| - 1]);
      StepKeeps(Run(launch, inputs[..|inputs| - 1]), inputs[|inputs| - 1]);
    }
  }

  lemma StepRoom(s: System, input: Input)
    ensures Step(s, input).room == Handle(s.room, input.event, input.now).0
  {
    hide Handle, Enrolled, AdmittedAfter, RelayedIn, LeftBetween, Acknowledged, IdSet;
  }

  lemma RunRoom(s: System)
    requires RunInv(s)
    ensures RoomInv(s.room)
  {
  }
}
