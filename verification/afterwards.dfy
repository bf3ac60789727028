// What follows for good: whoever was sent away gets no later key, and a locked room stays locked
// until the host opens it.
module Afterwards {
  import opened RoomTypes
  import opened Members
  import opened Actor
  import opened ActorInvariants
  import opened Channels
  import opened Runs
  import opened MemberViews
  import opened KeySeparation
  import opened Transitions
  import opened Departures
  import opened Commands
  import opened Answers

  // ---- every step of every run -----------------------------------------------------------------

  // What one event does in a room that is open, told by the event alone.
  ghost predicate StepOutcome(r: Room, event: Event, now: Time, r': Room, reply: Reply) {
    && PolicyOutcome(r, event, now, r', reply) && QueueOutcome(r, event, r')
    && (!event.ChatReceived? ==> Departs(r, event, now, r', reply) && TimeoutsOutcome(r, event, r'))
  }

  lemma {:induction false} EveryStep(launch: Launch, inputs: seq<Input>, input: Input)
    requires LaunchOk(launch) && AllAdmissible(inputs) && Run(launch, inputs).room.phase != Destroyed
    ensures var r := Run(launch, inputs).room;
      var (r', reply) := Handle(r, input.event, input.now);
      StepOutcome(r, input.event, input.now, r', reply)
  {
    hide RunInv, RoomInv, Run, Handle, PolicyOutcome, QueueOutcome, Departs, TimeoutsOutcome;
    RunHolds(launch, inputs);
    var s := Run(launch, inputs);
    RunRoom(s);
    PolicyExactly(s.room, input.event, input.now);
    QueueExactly(s.room, input.event, input.now);
    if !input.event.ChatReceived? {
      DeparturesExactly(s.room, input.event, input.now);
      TimeoutsExactly(s.room, input.event, input.now);
    }
  }

  // ---- no later key --------------------------------------------------------------------------------

  lemma {:induction false} LogGrows(launch: Launch, inputs: seq<Input>, more: seq<Input>)
    ensures var (s, s') := (Run(launch, inputs), Run(launch, inputs + more));
      |s.log| <= |s'.log| && s'.log[..|s.log|] == s.log
    decreases |more|
  {
    hide Step;
    if more == [] { assert inputs + more == inputs; }
    else {
      var before := more[..|more| - 1];
      assert (inputs + more)[..|inputs + more| - 1] == inputs + before;
      LogGrows(launch, inputs, before);
      LogSteps(Run(launch, inputs + before), more[|more| - 1]);
    }
  }

  lemma LogSteps(s: System, input: Input)
    ensures |s.log| <= |Step(s, input).log| && Step(s, input).log[..|s.log|] == s.log
  {
    hide Handle, Enrolled, AdmittedAfter, RelayedIn, LeftBetween, Acknowledged, IdSet;
  }

  // A member of one epoch that is missing in the next gets no wrap after the first of them.
  lemma MissingGetsNoWrap(launch: Launch, inputs: seq<Input>, input: Input, more: seq<Input>, id: MemberId, i: nat)
    requires LaunchOk(launch) && AllAdmissible(inputs + [input] + more)
    requires var (r, r') := (Run(launch, inputs).room, Run(launch, inputs + [input]).room);
      id in IdSet(r.table.members) && id !in IdSet(r'.table.members) && r'.epoch == r.epoch + 1
    requires |Run(launch, inputs).log| <= i < |Run(launch, inputs + [input] + more).log|
    ensures var a := Run(launch, inputs + [input] + more).log[i]; IsWrap(a) ==> a.message.recipient != id
  {
    hide Run, IdSet;
    var all := inputs + [input] + more;
    var (s, s1, s2) := (Run(launch, inputs), Run(launch, inputs + [input]), Run(launch, all));
    var e := s.room.epoch;
    PrefixAdmissible(inputs + [input], more);
    PrefixAdmissible(inputs, [input]);
    assert all == inputs + ([input] + more);
    LogGrows(launch, inputs, [input] + more);
    WrappedForRosterExactly(launch, inputs, e, id);
    WrappedForRosterExactly(launch, inputs + [input], e + 1, id);
    var j :| 0 <= j < |s.log| && IsWrap(s.log[j]) && s.log[j].message.epoch == e && s.log[j].message.recipient == id;
    assert s2.log[j] == s.log[j];
    RosterIsFixed(launch, inputs, [input] + more, e);
    RosterIsFixed(launch, inputs + [input], more, e + 1);
    if IsWrap(s2.log[i]) && s2.log[i].message.recipient == id {
      var f := s2.log[i].message.epoch;
      WrapsIncrease(launch, all, j, i);
      WrappedForRosterExactly(launch, all, f, id);
      KeysFormInterval(launch, all, e, e, id);
      KeysFormInterval(launch, all, e + 1, f, id);
    }
  }

  // Whoever an event sends away, by leaving, being kicked, being lost or being late, is out of the
  // room at once and gets none of the later keys, however the run goes on.
  lemma {:induction false} GoneForGood(launch: Launch, inputs: seq<Input>, input: Input, more: seq<Input>, m: Member)
    requires LaunchOk(launch) && AllAdmissible(inputs + [input] + more) && !input.event.ChatReceived?
    requires var r := Run(launch, inputs).room; m in r.table.members && SendsAway(r, input.event, input.now, m)
    ensures var r' := Run(launch, inputs + [input]).room;
      m.id !in IdSet(r'.table.members) && m.connection !in r'.entries && r'.epoch == Run(launch, inputs).room.epoch + 1
    ensures var (before, after) := (Run(launch, inputs).log, Run(launch, inputs + [input] + more).log);
      forall i :: |before| <= i < |after| && IsWrap(after[i]) ==> after[i].message.recipient != m.id
  {
    hide Run, RunInv, RoomInv, Handle, SendsAway, IdSet, Announced, Farewell;
    var r := Run(launch, inputs).room;
    PrefixAdmissible(inputs + [input], more);
    PrefixAdmissible(inputs, [input]);
    RunHolds(launch, inputs);
    RunRoom(Run(launch, inputs));
    RunSnoc(launch, inputs, input);
    StepRoom(Run(launch, inputs), input);
    AwayIsOpen(r, input.event, input.now, m);
    DeparturesExactly(r, input.event, input.now);
    var r' := Run(launch, inputs + [input]).room;
    GoneIsOut(r, r', SentAway(r, input.event, input.now), m);
    forall i | |Run(launch, inputs).log| <= i < |Run(launch, inputs + [input] + more).log| &&
      IsWrap(Run(launch, inputs + [input] + more).log[i])
      ensures Run(launch, inputs + [input] + more).log[i].message.recipient != m.id {
      MissingGetsNoWrap(launch, inputs, input, more, m.id, i);
    }
  }

  lemma RunSnoc(launch: Launch, inputs: seq<Input>, input: Input)
    ensures Run(launch, inputs + [input]) == Step(Run(launch, inputs), input)
  {
    hide Step, Launched;
    assert (inputs + [input])[..|inputs + [input]| - 1] == inputs;
  }

  lemma AwayIsOpen(r: Room, event: Event, now: Time, m: Member)
    requires m in r.table.members && SendsAway(r, event, now, m)
    ensures r.phase != Destroyed && !Closes(r, event, now) && m.id in SentAway(r, event, now)
    ensures m.id in IdSet(r.table.members)
  {
    hide Drops, ChecksDeadline, Overdue;
    var i :| 0 <= i < |r.table.members| && r.table.members[i] == m;
  }

  lemma GoneIsOut(r: Room, r': Room, gone: set<MemberId>, m: Member)
    requires Removed(r, r', gone) && m in r.table.members && m.id in gone
    ensures m.id !in IdSet(r'.table.members) && m.connection !in r'.entries && r'.epoch == r.epoch + 1
  {
    var i :| 0 <= i < |r.table.members| && r.table.members[i] == m;
    assert HeldBy(r.table.members, m.connection, gone);
    forall k | 0 <= k < |r'.table.members| ensures r'.table.members[k].id != m.id {
      assert r'.table.members[k] in r'.table.members;
    }
  }

  // ---- locked is locked -----------------------------------------------------------------------------

  // After the host locked the room nobody is queued until it opens it again.
  lemma {:induction false} LockedUntilOpened(launch: Launch, inputs: seq<Input>, input: Input, more: seq<Input>)
    requires LaunchOk(launch) && AllAdmissible(inputs + [input] + more) && Locks(Run(launch, inputs).room, input.event)
    requires forall i :: 0 <= i < |more| ==> more[i].event != OnHostCommand(ReqOn)
    ensures var r := Run(launch, inputs + [input] + more).room;
      !r.policyOpen && r.queue.requests == [] && r.phase != Open
    decreases |more|
  {
    hide Run, RunInv, Handle, Step;
    var all := inputs + [input] + more;
    RunHolds(launch, all);
    RunRoom(Run(launch, all));
    PrefixAdmissible(inputs + [input], more);
    PrefixAdmissible(inputs, [input]);
    if more == [] {
      assert all == inputs + [input];
      StepPolicy(launch, inputs, input);
    } else {
      var before := more[..|more| - 1];
      var last := more[|more| - 1];
      assert all == inputs + [input] + before + [last];
      PrefixAdmissible(inputs + [input] + before, [last]);
      LockedUntilOpened(launch, inputs, input, before);
      StepPolicy(launch, inputs + [input] + before, last);
    }
    ClosedPolicy(Run(launch, all).room);
  }

  lemma StepPolicy(launch: Launch, inputs: seq<Input>, input: Input)
    requires LaunchOk(launch) && AllAdmissible(inputs)
    ensures var (r, r') := (Run(launch, inputs).room, Run(launch, inputs + [input]).room);
      Locks(r, input.event) || (!r.policyOpen && input.event != OnHostCommand(ReqOn)) ==> !r'.policyOpen
  {
    hide Run, RunInv, RoomInv, Step, Handle, PolicyTold, Emptied, SameMembership, Quiescent;
    RunHolds(launch, inputs);
    var r := Run(launch, inputs).room;
    RunRoom(Run(launch, inputs));
    RunSnoc(launch, inputs, input);
    StepRoom(Run(launch, inputs), input);
    if r.phase != Destroyed { PolicyExactly(r, input.event, input.now); }
    else { ClosedStays(r, input.event, input.now); }
  }

  lemma ClosedStays(r: Room, event: Event, now: Time)
    requires r.phase == Destroyed
    ensures Handle(r, event, now).0 == r.(now := now)
    ensures !Locks(r, event)
  {
  }

  lemma ClosedPolicy(r: Room)
    requires RoomInv(r) && !r.policyOpen
    ensures r.queue.requests == [] && r.phase != Open
  {
  }
}
