// Every envelope is passed on at most once, although the replay tracker forgets old epochs.
module RelayOnce {
  import opened RoomTypes
  import opened Replay
  import opened Actor
  import opened ActorInvariants
  import opened ActorMoves
  import opened Views
  import opened Channels
  import opened Agreement
  import opened Restarting
  import opened Runs
  import opened MemberViews
  import opened KeySeparation

  // The full tracker restricted to the current epoch is the room's own.
  ghost predicate TrackerInv(marks: Marks, replay: Marks, epoch: nat) {
    && (forall k :: k in marks ==> k.1 <= epoch)
    && (forall k :: k in replay ==> k in marks && marks[k] == replay[k])
    && (forall k :: k in marks && k.1 == epoch ==> k in replay)
  }

  // Nothing was passed on that the full tracker has not recorded.
  ghost predicate RecordedInv(relayed: set<(MemberId, nat, nat)>, marks: Marks) {
    forall t :: t in relayed ==> (t.0, t.1) in marks && t.2 <= marks[(t.0, t.1)]
  }

  ghost predicate RelayInv(s: System) {
    TrackerInv(s.marks, s.room.replay, s.room.epoch) && RecordedInv(s.relayed, s.marks)
  }

  // ---- one step ------------------------------------------------------------------------------

  lemma WithinMarks(r: Room, r': Room, marks: Marks)
    requires TrackerInv(marks, r.replay, r.epoch) && SameRoom(r, r') && MarksInv(r'.replay, r.epoch)
    ensures TrackerInv(marks + r'.replay, r'.replay, r'.epoch) && MarksGrow(marks, marks + r'.replay)
  {
    hide Roster;
  }

  lemma AcrossMarks(r: Room, r': Room, marks: Marks)
    requires TrackerInv(marks, r.replay, r.epoch) && MarksInv(r.replay, r.epoch)
    requires r'.epoch == r.epoch + 1 && r'.replay == Retained(r.replay, r'.epoch)
    ensures TrackerInv(marks + r'.replay, r'.replay, r'.epoch) && marks + r'.replay == marks
  {
    forall k | k in r'.replay ensures false { assert k in r.replay; }
    assert r'.replay == map[];
  }

  lemma RecordedGrows(relayed: set<(MemberId, nat, nat)>, marks: Marks, marks': Marks)
    requires RecordedInv(relayed, marks) && MarksGrow(marks, marks')
    ensures RecordedInv(relayed, marks')
  {
    forall t | t in relayed ensures (t.0, t.1) in marks' && t.2 <= marks'[(t.0, t.1)] {
      assert (t.0, t.1) in marks;
    }
  }

  // A batch passes on at most one envelope, and a fresh one.
  lemma BatchRelays(r: Room, r': Room, actions: seq<Action>, issued: Issued, move: Move)
    requires r.nextKey >= 1 && MoveOk(r, r', actions, move)
    requires AllDeferredOk(r.deferred, r.hostKey, r.epoch, r.sequence, issued)
    ensures forall t :: t in RelayedIn(actions) ==>
      move.RelayChat? && t == Triple(move.envelope) && t.1 == r.epoch
      && Fresh(r.replay, t.0, r.epoch, t.2) && r'.replay == r.replay[(t.0, r.epoch) := t.2]
  {
    hide MoveOk, AllDeferredOk;
    forall t | t in RelayedIn(actions)
      ensures move.RelayChat? && t == Triple(move.envelope) && t.1 == r.epoch
        && Fresh(r.replay, t.0, r.epoch, t.2) && r'.replay == r.replay[(t.0, r.epoch) := t.2] {
      var i :| 0 <= i < |actions| && actions[i].SendTo? && actions[i].message.Relayed? &&
        t == Triple(actions[i].message.envelope);
      OnlyRelaysRelay(r, r', actions, issued, move, i);
      UnfoldRelay(r, r', actions, move);
    }
  }

  lemma RelayStep(s: System, input: Input)
    requires RunInv(s) && RelayInv(s) && Admissible(input.event)
    ensures RelayInv(Step(s, input))
    ensures MarksGrow(s.marks, Step(s, input).marks)
    ensures var batch := RelayedIn(Sent(Handle(s.room, input.event, input.now).1));
      && (forall t, u :: t in batch && u in batch ==> t == u)
      && (forall t :: t in batch ==> t.1 == s.room.epoch)
      && (forall t, u :: t in batch && u in s.relayed && u.0 == t.0 && u.1 == t.1 ==> u.2 < t.2)
  {
    hide RosterInv, EpochInv, MarksInv, MoveOk, Handle, AgreementInv, HostMisses, HostAwaits, AllDeferredOk,
      ChannelsOrdered, MemberInv, IssuedInv, SameRoom, RelayedIn, TrackerInv, MarksGrow;
    var s' := Step(s, input);
    var actions := Sent(Handle(s.room, input.event, input.now).1);
    var move := ChannelStep(s, input);
    BatchRelays(s.room, s'.room, actions, s.issued, move);
    if WithinEpoch(move) {
      WithinIsSame(s.room, s'.room, actions, move);
      WithinMarks(s.room, s'.room, s.marks);
    } else {
      AcrossIsNext(s.room, s'.room, actions, move);
      AcrossMarks(s.room, s'.room, s.marks);
      AllMarksGrow(s.marks);
    }
    RecordedGrows(s.relayed, s.marks, s'.marks);
    forall t | t in RelayedIn(actions)
      ensures (t.0, t.1) in s'.marks && t.2 <= s'.marks[(t.0, t.1)]
      ensures forall u :: u in s.relayed && u.0 == t.0 && u.1 == t.1 ==> u.2 < t.2 {
      NewRelay(s.marks, s.room.replay, s'.room.replay, s.room.epoch, s.relayed, t);
    }
  }

  lemma AllMarksGrow(marks: Marks)
    ensures MarksGrow(marks, marks)
  {
  }

  lemma NewRelay(marks: Marks, replay: Marks, replay': Marks, epoch: nat, relayed: set<(MemberId, nat, nat)>,
    t: (MemberId, nat, nat))
    requires TrackerInv(marks, replay, epoch) && RecordedInv(relayed, marks)
    requires t.1 == epoch && Fresh(replay, t.0, epoch, t.2) && replay' == replay[(t.0, epoch) := t.2]
    ensures (t.0, t.1) in marks + replay' && t.2 <= (marks + replay')[(t.0, t.1)]
    ensures forall u :: u in relayed && u.0 == t.0 && u.1 == t.1 ==> u.2 < t.2
  {
    assert (t.0, t.1) in replay';
    forall u | u in relayed && u.0 == t.0 && u.1 == t.1 ensures u.2 < t.2 {
      assert (u.0, u.1) in marks && (u.0, u.1) == (t.0, epoch);
    }
  }

  lemma AcrossIsNext(r: Room, r': Room, actions: seq<Action>, move: Move)
    requires r.nextKey >= 1 && MoveOk(r, r', actions, move) && !WithinEpoch(move)
    ensures r'.epoch == r.epoch + 1 && r'.replay == Retained(r.replay, r'.epoch)
  {
    hide QueueMemberJoined, QueueAllGone, WrapAll, OneLeft, Survivors;
  }

  lemma {:induction false} RelaysHold(launch: Launch, inputs: seq<Input>)
    requires LaunchOk(launch) && AllAdmissible(inputs)
    ensures RelayInv(Run(launch, inputs))
    decreases |inputs|
  {
    hide RunInv, RelayInv, Step;
    if inputs == [] { RelayLaunch(launch); }
    else {
      RunHolds(launch, inputs[..|inputs| - 1]);
      RelaysHold(launch, inputs[..|inputs| - 1]);
      RelayStep(Run(launch, inputs[..|inputs| - 1]), inputs[|inputs| - 1]);
    }
  }

  lemma RelayLaunch(launch: Launch)
    requires LaunchOk(launch)
    ensures RelayInv(Launched(launch))
  {
  }

  // ---- the theorems ----------------------------------------------------------------------------

  // No (sender, epoch, sequence) is passed on twice, and what is passed on of one sender in one
  // epoch carries strictly increasing sequences.
  lemma {:induction false} AtMostOnce(launch: Launch, inputs: seq<Input>, input: Input, t: (MemberId, nat, nat))
    requires LaunchOk(launch) && AllAdmissible(inputs) && Admissible(input.event)
    requires t in RelayedIn(Sent(Handle(Run(launch, inputs).room, input.event, input.now).1))
    ensures t !in Run(launch, inputs).relayed && t in Run(launch, inputs + [input]).relayed
    ensures t.1 == Run(launch, inputs).room.epoch
    ensures forall u :: u in Run(launch, inputs).relayed && u.0 == t.0 && u.1 == t.1 ==> u.2 < t.2
    ensures forall u :: u in Run(launch, inputs + [input]).relayed ==> u in Run(launch, inputs).relayed || u == t
  {
    hide RunInv, RelayInv, Handle, RelayedIn, Launched;
    RunHolds(launch, inputs);
    RelaysHold(launch, inputs);
    assert (inputs + [input])[..|inputs|] == inputs;
    RelayStep(Run(launch, inputs), input);
  }

  // Forgetting the epochs that are over changes no answer: the room only ever asks about its
  // current epoch, and there its tracker says what one that never forgets would say.
  lemma {:induction false} ForgettingIsHarmless(launch: Launch, inputs: seq<Input>, sender: MemberId, sequence: nat)
    requires LaunchOk(launch) && AllAdmissible(inputs)
    ensures var s := Run(launch, inputs);
      && Fresh(s.room.replay, sender, s.room.epoch, sequence) == Fresh(s.marks, sender, s.room.epoch, sequence)
      && LastAccepted(s.room.replay, sender, s.room.epoch) == LastAccepted(s.marks, sender, s.room.epoch)
  {
    hide Run;
    RelaysHold(launch, inputs);
    var s := Run(launch, inputs);
    assert (sender, s.room.epoch) in s.marks <==> (sender, s.room.epoch) in s.room.replay;
  }
}
