// When a room is Open or Locked, everybody has acknowledged the current epoch.
module Activation {
  import opened Wrappers
  import opened RoomTypes
  import opened Members
  import opened Registry
  import opened Actor
  import opened ActorInvariants
  import opened ActorMoves
  import opened Views
  import opened Channels
  import opened Agreement
  import opened Restarting
  import opened Runs
  import opened KeySeparation
  import opened Transitions

  predicate Missing(pending: Option<PendingEpoch>, id: MemberId) {
    pending.Some? && id in pending.value.awaiting
  }

  // The members that acknowledged the current epoch are those nobody waits for.
  predicate AckInv(members: seq<Member>, pending: Option<PendingEpoch>, acked: set<MemberId>) {
    && (forall id :: id in acked ==> id in IdSet(members))
    && (forall id :: id in IdSet(members) ==> (id in acked <==> !Missing(pending, id)))
  }

  ghost predicate CoherenceInv(s: System) {
    s.room.phase != Destroyed ==> AckInv(s.room.table.members, s.room.pending, s.acked)
  }

  lemma AckCounts(r: Room, c: ConnectionId, epoch: nat, acked: set<MemberId>)
    requires RoomInv(r) && r.phase != Destroyed && AckInv(r.table.members, r.pending, acked)
    ensures var r' := OnEpochAck(r, c, epoch).0;
      r'.epoch == r.epoch && r'.table == r.table &&
        AckInv(r.table.members, r'.pending, acked + Acknowledged(r, EpochAck(c, epoch)))
  {
    hide TableInv, LinkInv, QueueInv, LimitsInv, MarksInv, HasMember;
    if MemberOf(r.entries, c).Some? {
      MemberOfConnection(r, c);
      MemberIdInTable(r.table.members, c, MemberOf(r.entries, c).value);
    }
  }

  lemma MemberIdInTable(members: seq<Member>, c: ConnectionId, id: MemberId)
    requires HasMember(members, c, id)
    ensures id in IdSet(members)
  {
  }

  lemma NewEpochAwaitsAll(r: Room, r': Room)
    requires NextEpoch(r, r')
    ensures AckInv(r'.table.members, r'.pending, {})
  {
    IdsOfIsIdSet(r'.table.members);
  }

  // Events other than acknowledgements leave the missing ones alone.
  lemma OthersAreSteady(r: Room, event: Event, now: Time)
    requires RoomInv(r) && r.phase == EpochTransition && !event.EpochAck?
    ensures Steady(r, Handle(r, event, now).0)
  {
    hide RoomInv, HandleInTransition, Effective, Progress;
    RoomAt(r, now);
    InTransitionProgress(r.(now := now), event);
  }

  lemma AckHandled(r: Room, c: ConnectionId, epoch: nat, now: Time)
    requires r.phase != Destroyed
    ensures Handle(r, EpochAck(c, epoch), now) == OnEpochAck(r.(now := now), c, epoch)
  {
  }

  lemma SameIds(r: Room, r': Room)
    requires SameRoom(r, r')
    ensures IdSet(r'.table.members) == IdSet(r.table.members)
  {
    SameMembers(r, r');
  }

  lemma AckStep(s: System, input: Input)
    requires RoomInv(s.room) && CoherenceInv(s) && s.room.phase != Destroyed && input.event.EpochAck?
    ensures CoherenceInv(Step(s, input))
  {
    hide RoomInv, Handle, OnEpochAck, AckInv, MemberOf;
    AckHandled(s.room, input.event.connection, input.event.epoch, input.now);
    RoomAt(s.room, input.now);
    AckCounts(s.room.(now := input.now), input.event.connection, input.event.epoch, s.acked);
    AckedNow(s.room, input.event, input.now);
  }

  lemma AckedNow(r: Room, event: Event, now: Time)
    ensures Acknowledged(r.(now := now), event) == Acknowledged(r, event)
  {
  }

  lemma CoherenceStep(s: System, input: Input)
    requires RunInv(s) && CoherenceInv(s) && Admissible(input.event)
    ensures CoherenceInv(Step(s, input))
  {
    hide RosterInv, EpochInv, MarksInv, MoveOk, Handle, AgreementInv, HostMisses, HostAwaits, AllDeferredOk,
      ChannelsOrdered, MemberInv, IssuedInv, SameRoom, IdSet, RelayedIn, AdmittedAfter, Enrolled, NextEpoch;
    var s' := Step(s, input);
    var actions := Sent(Handle(s.room, input.event, input.now).1);
    var move := ChannelStep(s, input);
    if s.room.phase != Destroyed {
      TransitionIsPending(s.room);
      if input.event.EpochAck? { AckStep(s, input); }
      else {
        if WithinEpoch(move) {
          WithinIsSame(s.room, s'.room, actions, move);
          SameIds(s.room, s'.room);
          if s.room.phase == EpochTransition { OthersAreSteady(s.room, input.event, input.now); }
          else { StaysSettled(s.room, s'.room); }
        } else {
          AcrossBegins(s.room, s'.room, actions, move);
          NewEpochAwaitsAll(s.room, s'.room);
        }
        NoAcknowledgement(s.room, input.event);
      }
    }
  }

  lemma NoAcknowledgement(r: Room, event: Event)
    requires !event.EpochAck?
    ensures Acknowledged(r, event) == {}
  {
  }

  lemma StaysSettled(r: Room, r': Room)
    requires SameRoom(r, r') && r.pending.None?
    ensures r'.pending == r.pending
  {
  }

  lemma AcrossBegins(r: Room, r': Room, actions: seq<Action>, move: Move)
    requires r.nextKey >= 1 && MoveOk(r, r', actions, move) && !WithinEpoch(move)
    ensures NextEpoch(r, r') && r'.epoch == r.epoch + 1
  {
    hide QueueMemberJoined, QueueAllGone, WrapAll, OneLeft, Survivors;
  }

  lemma {:induction false} CoherenceHolds(launch: Launch, inputs: seq<Input>)
    requires LaunchOk(launch) && AllAdmissible(inputs)
    ensures CoherenceInv(Run(launch, inputs))
    decreases |inputs|
  {
    hide RunInv, CoherenceInv, Step;
    if inputs == [] { CoherenceLaunch(launch); }
    else {
      RunHolds(launch, inputs[..|inputs| - 1]);
      CoherenceHolds(launch, inputs[..|inputs| - 1]);
      CoherenceStep(Run(launch, inputs[..|inputs| - 1]), inputs[|inputs| - 1]);
    }
  }

  lemma CoherenceLaunch(launch: Launch)
    requires LaunchOk(launch)
    ensures CoherenceInv(Launched(launch))
  {
    IdsOfIsIdSet(Launched(launch).room.table.members);
  }

  // ---- the theorems ---------------------------------------------------------------------------

  // A transition is pending exactly while somebody's acknowledgement of the current epoch is
  // missing; otherwise the room is Open or Locked as its policy says, its active key is the key
  // of the current epoch and nothing is deferred. Either way it reads chat with that key.
  lemma {:induction false} ActivationIsCoherent(launch: Launch, inputs: seq<Input>)
    requires LaunchOk(launch) && AllAdmissible(inputs)
    requires Run(launch, inputs).room.phase != Destroyed
    ensures var s := Run(launch, inputs);
      var r := s.room;
      && r.nextKey == r.epoch >= 1
      && (r.phase == EpochTransition <==> exists id :: id in IdSet(r.table.members) && id !in s.acked)
      && (r.phase == EpochTransition <==> r.pending.Some?)
      && (r.pending.Some? ==> r.pending.value.epoch == r.epoch && r.pending.value.key == CurrentKey(r))
      && (r.pending.None? ==>
        r.epochKey == Some(CurrentKey(r)) && r.deferred == [] &&
        r.phase == if r.policyOpen then Open else Locked)
      && ChatKey(r) == Some((r.epoch, CurrentKey(r)))
  {
    hide Run, RosterInv, MarksInv, IssuedInv, MemberInv, AllDeferredOk, ChannelsOrdered, AgreementInv, HostMisses,
      HostAwaits;
    RunHolds(launch, inputs);
    CoherenceHolds(launch, inputs);
    var s := Run(launch, inputs);
    ChatKeyIsCurrent(s.room);
    if s.room.pending.Some? {
      var id := s.room.pending.value.awaiting[0];
      assert id in s.room.pending.value.awaiting;
      assert id in IdSet(s.room.table.members) && id !in s.acked;
    }
  }

  // ---- acknowledgements suffice ------------------------------------------------------------------

  // Every member, in table order, acknowledges epoch `epoch` at time `now`.
  function AcksOf(members: seq<Member>, epoch: nat, now: Time): seq<Input> {
    seq(|members|, i requires 0 <= i < |members| => Input(EpochAck(members[i].connection, epoch), now))
  }

  lemma AckRemoves(r: Room, i: nat, now: Time)
    requires RoomInv(r) && r.phase != Destroyed && i < |r.table.members|
    ensures var r' := Handle(r, EpochAck(r.table.members[i].connection, r.epoch), now).0;
      && RoomInv(r') && r'.phase != Destroyed && r'.epoch == r.epoch && r'.table == r.table &&
        r'.policyOpen == r.policyOpen
      && (forall id :: Missing(r'.pending, id) ==> Missing(r.pending, id) && id != r.table.members[i].id)
  {
    hide TableInv, QueueInv, LimitsInv, MarksInv, HasMember;
    HandleKeeps(r, EpochAck(r.table.members[i].connection, r.epoch), now);
  }

  lemma {:induction false} AckAll(r: Room, k: nat, now: Time)
    requires RoomInv(r) && r.phase != Destroyed && k <= |r.table.members|
    ensures var r' := After(r, AcksOf(r.table.members, r.epoch, now)[..k]);
      && RoomInv(r') && r'.phase != Destroyed && r'.epoch == r.epoch && r'.table == r.table &&
        r'.policyOpen == r.policyOpen
      && (forall id :: Missing(r'.pending, id) ==> Missing(r.pending, id))
      && (forall i :: 0 <= i < k ==> !Missing(r'.pending, r.table.members[i].id))
  {
    hide RoomInv, Handle, Missing;
    if k > 0 {
      var acks := AcksOf(r.table.members, r.epoch, now);
      assert acks[..k][..|acks[..k]| - 1] == acks[..k - 1];
      AckAll(r, k - 1, now);
      AckRemoves(After(r, acks[..k - 1]), k - 1, now);
    }
  }

  // No transition is stuck: once all its members acknowledge, it is over.
  lemma {:induction false} AcknowledgedActivates(launch: Launch, inputs: seq<Input>, now: Time)
    requires LaunchOk(launch) && AllAdmissible(inputs)
    requires Run(launch, inputs).room.phase != Destroyed
    ensures var r := Run(launch, inputs).room;
      var r' := After(r, AcksOf(r.table.members, r.epoch, now));
      r'.phase == (if r.policyOpen then Open else Locked) && r'.epoch == r.epoch && r'.table == r.table
  {
    hide Run, RoomInv, After;
    RunHolds(launch, inputs);
    RunRoom(Run(launch, inputs));
    var r := Run(launch, inputs).room;
    var acks := AcksOf(r.table.members, r.epoch, now);
    assert acks[..|r.table.members|] == acks;
    AckAll(r, |r.table.members|, now);
    NobodyMissing(After(r, acks));
  }

  lemma NobodyMissing(r: Room)
    requires RoomInv(r) && r.phase != Destroyed
    requires forall i :: 0 <= i < |r.table.members| ==> !Missing(r.pending, r.table.members[i].id)
    ensures r.phase == if r.policyOpen then Open else Locked
  {
    hide LinkInv, QueueInv, LimitsInv, MarksInv, TableInv, Missing;
    SomebodyMissing(r);
  }

  lemma SomebodyMissing(r: Room)
    requires RoomInv(r) && r.phase != Destroyed
    ensures r.pending.Some? ==> exists i :: 0 <= i < |r.table.members| && Missing(r.pending, r.table.members[i].id)
  {
    hide LinkInv, QueueInv, LimitsInv, MarksInv, TableInv;
    if r.pending.Some? {
      var id := r.pending.value.awaiting[0];
      assert id in IdSet(r.table.members);
      var i :| 0 <= i < |r.table.members| && r.table.members[i].id == id;
      assert Missing(r.pending, r.table.members[i].id);
    }
  }
}
