// Epoch keys over whole runs: who gets which key.
module KeySeparation {
  import opened RoomTypes
  import opened Members
  import opened Actor
  import opened ActorInvariants
  import opened ActorMoves
  import opened Views
  import opened Channels
  import opened Agreement
  import opened Restarting
  import opened Runs
  import opened MemberViews

  predicate IsWrap(a: Action) { a.SendTo? && a.message.EpochWrap? }

  // The one key of epoch `epoch`, and the action that hands it to a member.
  function KeyOfEpoch(epoch: nat): EpochKey { EpochKey(if epoch == 0 then 0 else epoch - 1) }

  function WrapOf(m: Member, epoch: nat): Action { WrapFor(m, epoch, KeyOfEpoch(epoch)) }

  // ---- the invariant -----------------------------------------------------------------------

  ghost predicate AdmittedInv(members: seq<Member>, nextId: MemberId, epoch: nat, admitted: map<MemberId, Member>) {
    && (forall i :: 0 <= i < |members| ==> members[i].id in admitted && admitted[members[i].id] == Plain(members[i]))
    && (forall id :: id in admitted ==> id < nextId && admitted[id].id == id && 1 <= admitted[id].joinedEpoch <= epoch)
  }

  ghost predicate RosterKeys(roster: map<nat, set<MemberId>>, epoch: nat) {
    (forall e :: e in roster ==> 1 <= e <= epoch) && forall e :: 1 <= e <= epoch ==> e in roster
  }

  predicate InRoster(roster: map<nat, set<MemberId>>, e: nat, id: MemberId) { e in roster && id in roster[e] }

  predicate JoinedBy(admitted: map<MemberId, Member>, id: MemberId, e: nat) {
    id in admitted && admitted[id].joinedEpoch <= e
  }

  // Nobody is in a roster before it was admitted, and from there on membership is an interval.
  ghost predicate RosterSpans(roster: map<nat, set<MemberId>>, admitted: map<MemberId, Member>) {
    && (forall e, id :: InRoster(roster, e, id) ==> JoinedBy(admitted, id, e))
    && (forall id :: id in admitted ==> InRoster(roster, admitted[id].joinedEpoch, id))
    && (forall e, f, id :: e in roster && e <= f && InRoster(roster, f, id) && JoinedBy(admitted, id, e) ==>
      InRoster(roster, e, id))
  }

  predicate WrapOk(a: Action, roster: map<nat, set<MemberId>>, admitted: map<MemberId, Member>) {
    IsWrap(a) ==>
      && a.message.epoch >= 1 && a.message.epoch in roster
      && a.message.recipient in roster[a.message.epoch] && a.message.recipient in admitted
      && a == WrapOf(admitted[a.message.recipient], a.message.epoch)
  }

  predicate WrapsSound(log: seq<Action>, roster: map<nat, set<MemberId>>, admitted: map<MemberId, Member>) {
    forall i :: 0 <= i < |log| ==> WrapOk(log[i], roster, admitted)
  }

  predicate WrapsComplete(log: seq<Action>, roster: map<nat, set<MemberId>>, admitted: map<MemberId, Member>) {
    forall e, id :: e in roster && id in roster[e] ==> id in admitted && WrapOf(admitted[id], e) in log
  }

  // Later wraps for one member are of later epochs.
  predicate WrapOrder(log: seq<Action>) {
    forall i, j ::
      0 <= i < j < |log| && IsWrap(log[i]) && IsWrap(log[j]) &&
      log[i].message.recipient == log[j].message.recipient ==>
      log[i].message.epoch < log[j].message.epoch
  }

  ghost predicate KeyInv(s: System) {
    && AdmittedInv(s.room.table.members, s.room.table.nextId, s.room.epoch, s.admitted)
    && RosterKeys(s.roster, s.room.epoch)
    && s.room.epoch >= 1 && s.roster[s.room.epoch] == IdSet(s.room.table.members)
    && RosterSpans(s.roster, s.admitted)
    && WrapsSound(s.log, s.roster, s.admitted)
    && WrapsComplete(s.log, s.roster, s.admitted)
    && WrapOrder(s.log)
  }

  // ---- batches ---------------------------------------------------------------------------

  predicate WithinEpoch(move: Move) { !move.Enroll? && !move.Depart? }

  lemma NoWrapsWithin(r: Room, r': Room, actions: seq<Action>, issued: Issued, move: Move, i: nat)
    requires r.nextKey >= 1 && MoveOk(r, r', actions, move) && i < |actions| && WithinEpoch(move)
    requires AllDeferredOk(r.deferred, r.hostKey, r.epoch, r.sequence, issued)
    ensures !IsWrap(actions[i])
  {
    hide SameRoom, SendAll, RelayOk, SignedEvent;
    match move
    case Idle =>
    case RelayChat(c, kind, e, _) => SendAllOnly(r'.table.members, TheConnection(c), Relayed(kind, e), i);
    case ChangePolicy(open, closed) =>
      var event := SignedEvent(r', PolicyChanged(open));
      PolicyEventIsEvent(r', open);
      if |closed| <= i < |closed| + |SendAll(r'.table.members, TheHost, event)| {
        SendAllOnly(r'.table.members, TheHost, event, i - |closed|);
      }
    case Activate(tail) =>
  }

  lemma PolicyEventIsEvent(r: Room, open: bool)
    ensures SignedEvent(r, PolicyChanged(open)).RoomEvent?
  {
  }

  // The wraps of a batch that begins an epoch.
  lemma WrapsAcross(r: Room, r': Room, actions: seq<Action>, move: Move)
    requires r.nextKey >= 1 && r.epoch == r.nextKey && MoveOk(r, r', actions, move) && !WithinEpoch(move)
    requires AllApart(r'.table.members)
    ensures r'.epoch == r.epoch + 1 && WrapOrder(actions)
    ensures forall i :: 0 <= i < |actions| && IsWrap(actions[i]) ==>
      exists k :: 0 <= k < |r'.table.members| && actions[i] == WrapOf(r'.table.members[k], r'.epoch)
    ensures forall k :: 0 <= k < |r'.table.members| ==> WrapOf(r'.table.members[k], r'.epoch) in actions
  {
    hide Survivors, OneLeft, QueueMemberJoined, QueueAllGone, SendAll, AllApart, WrapOrder;
    var before := if move.Depart? then move.before
      else [SendTo(move.m.connection, JoinAccepted(move.m.id)), Notify(MemberJoined(move.m.id, move.m.nickname))];
    var after := if move.Depart? then move.after else [];
    AcrossShape(r'.table.members, r'.epoch, actions, before, after);
  }

  lemma AcrossShape(members: seq<Member>, epoch: nat, actions: seq<Action>, before: seq<Action>, after: seq<Action>)
    requires epoch >= 1 && actions == before + WrapAll(members, epoch, EpochKey(epoch - 1)) + after && AllApart(members)
    ensures WrapOrder(actions)
    requires forall i :: 0 <= i < |before| ==> !IsWrap(before[i])
    requires forall i :: 0 <= i < |after| ==> !IsWrap(after[i])
    ensures forall i :: 0 <= i < |actions| && IsWrap(actions[i]) ==>
      exists k :: 0 <= k < |members| && actions[i] == WrapOf(members[k], epoch)
    ensures forall k :: 0 <= k < |members| ==> WrapOf(members[k], epoch) in actions
  {
    var wraps := WrapAll(members, epoch, EpochKey(epoch - 1));
    forall k | 0 <= k < |members| ensures WrapOf(members[k], epoch) in actions {
      assert actions[|before| + k] == wraps[k];
    }
    forall i | 0 <= i < |actions| && IsWrap(actions[i])
      ensures exists k :: 0 <= k < |members| && actions[i] == WrapOf(members[k], epoch) {
      assert actions[i] == wraps[i - |before|];
    }
    forall i, j | 0 <= i < j < |actions| && IsWrap(actions[i]) && IsWrap(actions[j])
      ensures actions[i].message.recipient != actions[j].message.recipient {
      assert actions[i] == wraps[i - |before|] && actions[j] == wraps[j - |before|];
      assert Apart(members[i - |before|], members[j - |before|]);
    }
  }

  // Wraps of the next epoch go after all wraps so far.
  lemma OrderNext(log: seq<Action>, actions: seq<Action>, roster: map<nat, set<MemberId>>, admitted: map<MemberId,
    Member>, epoch: nat, members: seq<Member>)
    requires WrapOrder(log) && WrapOrder(actions) && WrapsSound(log, roster, admitted) && RosterKeys(roster, epoch)
    requires forall i :: 0 <= i < |actions| && IsWrap(actions[i]) ==>
      exists k :: 0 <= k < |members| && actions[i] == WrapOf(members[k], epoch + 1)
    ensures WrapOrder(log + actions)
  {
    var all := log + actions;
    forall i, j | 0 <= i < j < |all| && IsWrap(all[i]) && IsWrap(all[j]) &&
      all[i].message.recipient == all[j].message.recipient
      ensures all[i].message.epoch < all[j].message.epoch {
      if i < |log| { assert all[i] == log[i] && WrapOk(log[i], roster, admitted); }
      else { assert all[i] == actions[i - |log|]; }
      if j >= |log| { assert all[j] == actions[j - |log|]; }
    }
  }

  lemma OrderWithin(log: seq<Action>, actions: seq<Action>)
    requires WrapOrder(log) && forall i :: 0 <= i < |actions| ==> !IsWrap(actions[i])
    ensures WrapOrder(log + actions)
  {
    var all := log + actions;
    assert forall i :: 0 <= i < |all| ==> all[i] == if i < |log| then log[i] else actions[i - |log|];
  }

  // ---- one move ----------------------------------------------------------------------------

  lemma WithinKeeps(s: System, s': System, actions: seq<Action>)
    requires KeyInv(s) && SameRoom(s.room, s'.room) && s'.log == s.log + actions && s.room.table.members != []
    requires s'.roster == s.roster && s'.admitted == AdmittedAfter(s.admitted, s'.room.table.members)
    requires forall i :: 0 <= i < |actions| ==> !IsWrap(actions[i])
    ensures KeyInv(s')
  {
    hide RosterSpans, RosterKeys, WrapOf, WrapOrder;
    OrderWithin(s.log, actions);
    SameMembers(s.room, s'.room);
    var ms := s'.room.table.members;
    forall i | 0 <= i < |ms| ensures ms[i].id in s.admitted && s.admitted[ms[i].id] == Plain(ms[i]) {
      assert Plain(ms[i]) == Plain(s.room.table.members[i]);
    }
    assert s'.admitted == s.admitted;
    assert WrapsComplete(s'.log, s.roster, s.admitted);
  }

  // The members of the next epoch: those that were there and, at most, one never seen before.
  predicate Successors(before: seq<Member>, after: seq<Member>, nextId: MemberId, nextId': MemberId, epoch: nat) {
    && after != [] && nextId <= nextId'
    && forall i :: 0 <= i < |after| ==>
        after[i] in before ||
        (i == |after| - 1 && nextId <= after[i].id < nextId' && after[i].joinedEpoch == epoch)
  }

  lemma AdmittedNext(before: seq<Member>, after: seq<Member>, nextId: MemberId, nextId': MemberId, epoch: nat,
    admitted: map<MemberId, Member>)
    requires epoch >= 1 && AdmittedInv(before, nextId, epoch, admitted) &&
      Successors(before, after, nextId, nextId', epoch + 1)
    ensures AdmittedInv(after, nextId', epoch + 1, AdmittedAfter(admitted, after))
    ensures forall id :: id in admitted ==>
      id in AdmittedAfter(admitted, after) && AdmittedAfter(admitted, after)[id] == admitted[id]
    ensures forall id :: id in IdSet(after) && id in admitted ==> id in IdSet(before)
    ensures forall id :: id in AdmittedAfter(admitted, after) && id !in admitted ==>
      id in IdSet(after) && AdmittedAfter(admitted, after)[id].joinedEpoch == epoch + 1
  {
    hide IdSet;
    var last := after[|after| - 1];
    forall i | 0 <= i < |after|
      ensures (after[i] in before ==> after[i].id in admitted && admitted[after[i].id] == Plain(after[i])) {
      if after[i] in before { var k :| 0 <= k < |before| && before[k] == after[i]; }
    }
    assert forall i :: 0 <= i < |after| - 1 ==> after[i] in before;
    InIdSet(after, |after| - 1);
    forall id | id in IdSet(after) && id in admitted ensures id in IdSet(before) {
      var i := IndexInIdSet(after, id);
      var k :| 0 <= k < |before| && before[k] == after[i];
      InIdSet(before, k);
    }
  }

  lemma InIdSet(members: seq<Member>, k: nat)
    requires k < |members|
    ensures members[k].id in IdSet(members)
  {
  }

  lemma IndexInIdSet(members: seq<Member>, id: MemberId) returns (i: nat)
    requires id in IdSet(members)
    ensures i < |members| && members[i].id == id
  {
    i :| 0 <= i < |members| && members[i].id == id;
  }

  ghost predicate RosterGrows(roster: map<nat, set<MemberId>>, epoch: nat, admitted: map<MemberId, Member>,
    ids: set<MemberId>, admitted': map<MemberId, Member>)
  {
    && epoch >= 1 && RosterKeys(roster, epoch)
    && (forall id :: id in admitted ==>
      id in admitted' && admitted'[id] == admitted[id] && admitted[id].joinedEpoch <= epoch)
    && (forall id :: id in admitted' && id !in admitted ==> id in ids && admitted'[id].joinedEpoch == epoch + 1)
    && (forall id :: id in ids ==> id in admitted' && (id in admitted ==> InRoster(roster, epoch, id)))
  }

  lemma RosterNext(roster: map<nat, set<MemberId>>, epoch: nat, admitted: map<MemberId, Member>, ids: set<MemberId>,
    admitted': map<MemberId, Member>)
    requires RosterGrows(roster, epoch, admitted, ids, admitted') && RosterSpans(roster, admitted)
    ensures RosterKeys(roster[epoch + 1 := ids], epoch + 1)
    ensures RosterSpans(roster[epoch + 1 := ids], admitted')
  {
    var roster' := roster[epoch + 1 := ids];
    forall e, id | InRoster(roster', e, id) ensures JoinedBy(admitted', id, e) {
      if e != epoch + 1 { assert InRoster(roster, e, id); }
    }
    forall id | id in admitted' ensures InRoster(roster', admitted'[id].joinedEpoch, id) {
      if id in admitted { assert InRoster(roster, admitted[id].joinedEpoch, id); }
    }
    forall e, f, id | e in roster' && e <= f && InRoster(roster', f, id) && JoinedBy(admitted', id, e)
      ensures InRoster(roster', e, id) {
      RosterIntervalNext(roster, epoch, admitted, ids, admitted', e, f, id);
    }
  }

  lemma RosterIntervalNext(roster: map<nat, set<MemberId>>, epoch: nat, admitted: map<MemberId, Member>,
    ids: set<MemberId>, admitted': map<MemberId, Member>, e: nat, f: nat, id: MemberId)
    requires RosterGrows(roster, epoch, admitted, ids, admitted') && RosterSpans(roster, admitted)
    requires e in roster[epoch + 1 := ids] && e <= f && InRoster(roster[epoch + 1 := ids], f, id) &&
      JoinedBy(admitted', id, e)
    ensures InRoster(roster[epoch + 1 := ids], e, id)
  {
    if e <= epoch {
      assert f <= epoch ==> InRoster(roster, f, id);
      assert id in admitted && JoinedBy(admitted, id, e);
      assert InRoster(roster, if f <= epoch then f else epoch, id);
      assert InRoster(roster, e, id);
    }
  }

  lemma AcrossKeeps(s: System, s': System, actions: seq<Action>)
    requires KeyInv(s) && s'.log == s.log + actions && s'.room.epoch == s.room.epoch + 1
    requires Successors(s.room.table.members, s'.room.table.members, s.room.table.nextId, s'.room.table.nextId,
      s'.room.epoch)
    requires s'.roster == s.roster[s'.room.epoch := IdSet(s'.room.table.members)]
    requires s'.admitted == AdmittedAfter(s.admitted, s'.room.table.members)
    requires forall i :: 0 <= i < |actions| && IsWrap(actions[i]) ==>
      exists k :: 0 <= k < |s'.room.table.members| && actions[i] == WrapOf(s'.room.table.members[k], s'.room.epoch)
    requires forall k :: 0 <= k < |s'.room.table.members| ==> WrapOf(s'.room.table.members[k], s'.room.epoch) in actions
    requires WrapOrder(actions)
    ensures KeyInv(s')
  {
    hide Successors, RosterSpans, WrapsComplete, WrapsSound, AdmittedAfter, IdSet, WrapOrder;
    OrderNext(s.log, actions, s.roster, s.admitted, s.room.epoch, s'.room.table.members);
    AdmittedNext(s.room.table.members, s'.room.table.members, s.room.table.nextId, s'.room.table.nextId, s.room.epoch,
      s.admitted);
    forall id | id in IdSet(s'.room.table.members) ensures id in s'.admitted {
      var i := IndexInIdSet(s'.room.table.members, id);
    }
    RosterNext(s.roster, s.room.epoch, s.admitted, IdSet(s'.room.table.members), s'.admitted);
    SoundNext(s, s', actions);
    CompleteNext(s, s', actions);
  }

  lemma SoundNext(s: System, s': System, actions: seq<Action>)
    requires WrapsSound(s.log, s.roster, s.admitted) && s'.log == s.log + actions
    requires RosterKeys(s.roster, s.room.epoch) && s'.room.epoch == s.room.epoch + 1
    requires s'.roster == s.roster[s'.room.epoch := IdSet(s'.room.table.members)]
    requires AdmittedInv(s'.room.table.members, s'.room.table.nextId, s'.room.epoch, s'.admitted)
    requires forall id :: id in s.admitted ==> id in s'.admitted && s'.admitted[id] == s.admitted[id]
    requires forall i :: 0 <= i < |actions| && IsWrap(actions[i]) ==>
      exists k :: 0 <= k < |s'.room.table.members| && actions[i] == WrapOf(s'.room.table.members[k], s'.room.epoch)
    ensures WrapsSound(s'.log, s'.roster, s'.admitted)
  {
    hide IdSet;
    forall i | 0 <= i < |s'.log| ensures WrapOk(s'.log[i], s'.roster, s'.admitted) {
      if i < |s.log| { assert s'.log[i] == s.log[i]; assert WrapOk(s.log[i], s.roster, s.admitted); }
      else if IsWrap(s'.log[i]) {
        assert s'.log[i] == actions[i - |s.log|];
        var k :| 0 <= k < |s'.room.table.members| && s'.log[i] == WrapOf(s'.room.table.members[k], s'.room.epoch);
        InIdSet(s'.room.table.members, k);
      }
    }
  }

  lemma CompleteNext(s: System, s': System, actions: seq<Action>)
    requires WrapsComplete(s.log, s.roster, s.admitted) && s'.log == s.log + actions
    requires s'.roster == s.roster[s'.room.epoch := IdSet(s'.room.table.members)]
    requires AdmittedInv(s'.room.table.members, s'.room.table.nextId, s'.room.epoch, s'.admitted)
    requires forall id :: id in s.admitted ==> id in s'.admitted && s'.admitted[id] == s.admitted[id]
    requires forall k :: 0 <= k < |s'.room.table.members| ==> WrapOf(s'.room.table.members[k], s'.room.epoch) in actions
    ensures WrapsComplete(s'.log, s'.roster, s'.admitted)
  {
    hide IdSet;
    forall e, id | e in s'.roster && id in s'.roster[e]
      ensures id in s'.admitted && WrapOf(s'.admitted[id], e) in s'.log {
      if e == s'.room.epoch {
        var k := IndexInIdSet(s'.room.table.members, id);
        assert WrapOf(s'.admitted[id], e) == WrapOf(s'.room.table.members[k], e);
      } else {
        assert WrapOf(s.admitted[id], e) in s.log;
      }
    }
  }

  lemma MoveSuccessors(r: Room, r': Room, actions: seq<Action>, move: Move)
    requires r.nextKey >= 1 && MoveOk(r, r', actions, move) && !WithinEpoch(move) && r'.table.members != []
    ensures Successors(r.table.members, r'.table.members, r.table.nextId, r'.table.nextId, r'.epoch)
  {
    hide QueueMemberJoined, QueueAllGone, WrapAll, OneLeft;
  }

  lemma KeyStep(s: System, input: Input)
    requires RunInv(s) && KeyInv(s) && Admissible(input.event)
    ensures KeyInv(Step(s, input))
  {
    hide RosterInv, EpochInv, MarksInv, MoveOk, Handle, KeyInv, AllApart, TableInv, AgreementInv, HostMisses,
      HostAwaits, AllDeferredOk, ChannelsOrdered, MemberInv, IssuedInv, SameRoom, Successors, IdSet, AdmittedAfter;
    var s' := Step(s, input);
    var actions := Sent(Handle(s.room, input.event, input.now).1);
    var move := ChannelStep(s, input);
    HostConnectionOf(s.room);
    HostConnectionOf(s'.room);
    if WithinEpoch(move) {
      forall i | 0 <= i < |actions| ensures !IsWrap(actions[i]) {
        NoWrapsWithin(s.room, s'.room, actions, s.issued, move, i);
      }
      WithinIsSame(s.room, s'.room, actions, move);
      WithinKeeps(s, s', actions);
    } else {
      RoomTableIsApart(s'.room);
      WrapsAcross(s.room, s'.room, actions, move);
      MoveSuccessors(s.room, s'.room, actions, move);
      AcrossKeeps(s, s', actions);
    }
  }

  lemma WithinIsSame(r: Room, r': Room, actions: seq<Action>, move: Move)
    requires r.nextKey >= 1 && MoveOk(r, r', actions, move) && WithinEpoch(move)
    ensures SameRoom(r, r') && r'.epoch == r.epoch
  {
  }

  lemma KeyLaunch(launch: Launch)
    requires LaunchOk(launch)
    ensures KeyInv(Launched(launch))
  {
    var s := Launched(launch);
    var ms := s.room.table.members;
    assert |ms| == 1 && IdSet(ms) == {HOST_ID};
    assert s.log == [Notify(InvitationRotated), WrapOf(ms[0], 1)];
    assert s.log[1] == WrapOf(ms[0], 1);
  }

  lemma {:induction false} KeysHold(launch: Launch, inputs: seq<Input>)
    requires LaunchOk(launch) && AllAdmissible(inputs)
    ensures KeyInv(Run(launch, inputs))
    decreases |inputs|
  {
    hide RunInv, KeyInv, Step, Launched;
    if inputs == [] { KeyLaunch(launch); }
    else {
      RunHolds(launch, inputs[..|inputs| - 1]);
      KeysHold(launch, inputs[..|inputs| - 1]);
      KeyStep(Run(launch, inputs[..|inputs| - 1]), inputs[|inputs| - 1]);
    }
  }

  // ---- the theorems ------------------------------------------------------------------------

  // The key of epoch `e` goes to exactly the members that epoch was opened for, each under the
  // key it was admitted with; and the current roster is the current table.
  lemma {:induction false} WrappedForRosterExactly(launch: Launch, inputs: seq<Input>, e: nat, id: MemberId)
    requires LaunchOk(launch) && AllAdmissible(inputs)
    ensures var s := Run(launch, inputs);
      (exists i :: 0 <= i < |s.log| && IsWrap(s.log[i]) && s.log[i].message.epoch == e &&
        s.log[i].message.recipient == id)
      <==> e in s.roster && id in s.roster[e]
    ensures var s := Run(launch, inputs);
      forall i :: 0 <= i < |s.log| && IsWrap(s.log[i]) ==>
        s.log[i].message.recipient in s.admitted &&
          s.log[i] == WrapOf(s.admitted[s.log[i].message.recipient], s.log[i].message.epoch)
    ensures var s := Run(launch, inputs);
      s.room.epoch in s.roster && s.roster[s.room.epoch] == IdSet(s.room.table.members)
  {
    hide Run, AdmittedInv, RosterSpans, IdSet;
    KeysHold(launch, inputs);
    var s := Run(launch, inputs);
    assert forall i :: 0 <= i < |s.log| ==> WrapOk(s.log[i], s.roster, s.admitted);
    if e in s.roster && id in s.roster[e] {
      assert WrapOf(s.admitted[id], e) in s.log;
      var i :| 0 <= i < |s.log| && s.log[i] == WrapOf(s.admitted[id], e);
      AdmittedIds(s, id);
      assert IsWrap(s.log[i]) && s.log[i].message.recipient == id;
    }
  }

  lemma AdmittedIds(s: System, id: MemberId)
    requires KeyInv(s) && id in s.admitted
    ensures s.admitted[id].id == id
  {
  }

  // On every channel the wraps for one member are of strictly increasing epochs, one per epoch,
  // and a current member's last one is of the current epoch.
  lemma {:induction false} WrapsIncrease(launch: Launch, inputs: seq<Input>, i: nat, j: nat)
    requires LaunchOk(launch) && AllAdmissible(inputs)
    requires var log := Run(launch, inputs).log;
      i < |log| && j < |log| && IsWrap(log[i]) && IsWrap(log[j]) && log[i].message.recipient == log[j].message.recipient
    ensures var log := Run(launch, inputs).log;
      && (i < j <==> log[i].message.epoch < log[j].message.epoch)
      && log[i].message.epoch <= Run(launch, inputs).room.epoch
  {
    hide Run, AdmittedInv, RosterSpans, IdSet, WrapsComplete;
    KeysHold(launch, inputs);
    var s := Run(launch, inputs);
    assert WrapOk(s.log[i], s.roster, s.admitted);
  }

  // A member never gets the key of an epoch before its own admission, and once it missed one
  // epoch it gets no later key: removal is for good.
  lemma {:induction false} KeysFormInterval(launch: Launch, inputs: seq<Input>, e: nat, f: nat, id: MemberId)
    requires LaunchOk(launch) && AllAdmissible(inputs)
    requires var s := Run(launch, inputs); e in s.roster && f in s.roster && id in s.roster[f]
    ensures var s := Run(launch, inputs); id in s.admitted && s.admitted[id].joinedEpoch <= f
    ensures var s := Run(launch, inputs); e <= f ==> (id in s.roster[e] <==> s.admitted[id].joinedEpoch <= e)
  {
    hide Run, AdmittedInv, WrapsSound, WrapsComplete, IdSet;
    KeysHold(launch, inputs);
    var s := Run(launch, inputs);
    assert InRoster(s.roster, f, id) && JoinedBy(s.admitted, id, f);
    assert e <= f && JoinedBy(s.admitted, id, e) ==> InRoster(s.roster, e, id);
    assert InRoster(s.roster, e, id) ==> JoinedBy(s.admitted, id, e);
  }

  // What an epoch was opened with is never rewritten: with `WrappedForRosterExactly`, the
  // member set is constant for as long as its epoch lasts.
  lemma {:induction false} RosterIsFixed(launch: Launch, inputs: seq<Input>, more: seq<Input>, e: nat)
    requires LaunchOk(launch) && AllAdmissible(inputs + more)
    requires e in Run(launch, inputs).roster
    ensures e in Run(launch, inputs + more).roster
    ensures Run(launch, inputs + more).roster[e] == Run(launch, inputs).roster[e]
    decreases |more|
  {
    hide Step, KeyInv, Launched;
    if more == [] { assert inputs + [] == inputs; }
    else {
      var before := more[..|more| - 1];
      assert (inputs + more)[..|inputs + more| - 1] == inputs + before;
      assert inputs + more == inputs + before + [more[|more| - 1]];
      PrefixAdmissible(inputs + before, [more[|more| - 1]]);
      RosterIsFixed(launch, inputs, before, e);
      KeysHold(launch, inputs + before);
      StepRoster(Run(launch, inputs + before), more[|more| - 1], e);
    }
  }

  lemma StepRoster(s: System, input: Input, e: nat)
    requires KeyInv(s) && e in s.roster
    ensures e in Step(s, input).roster && Step(s, input).roster[e] == s.roster[e]
  {
    hide AdmittedInv, RosterSpans, WrapsSound, WrapsComplete, Handle, AdmittedAfter, Enrolled, RelayedIn, Acknowledged,
      IdSet;
    assert e <= s.room.epoch;
    var r := Handle(s.room, input.event, input.now).0;
    var ids := IdSet(r.table.members);
    var roster' := if r.epoch > s.room.epoch then s.roster[r.epoch := ids] else s.roster;
    assert roster'[e] == s.roster[e];
    assert Step(s, input).roster == roster';
  }

  lemma PrefixAdmissible(inputs: seq<Input>, more: seq<Input>)
    requires AllAdmissible(inputs + more)
    ensures AllAdmissible(inputs)
  {
    assert forall i :: 0 <= i < |inputs| ==> (inputs + more)[i] == inputs[i];
  }
}
