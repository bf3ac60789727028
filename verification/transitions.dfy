// An epoch transition ends: every event that counts brings it closer to activation or closure,
// and the room is coherent on both sides of it.
module Transitions {
  import opened Wrappers
  import opened RoomTypes
  import opened Members
  import opened Registry
  import opened Replay
  import opened RateLimit
  import opened Actor
  import opened ActorInvariants
  import opened ActorMoves
  import opened Runs

  // ---- measures --------------------------------------------------------------------------

  // Members, then missing acknowledgements.
  function Rank(r: Room): nat {
    |r.table.members| * (r.table.limit + 1) + if r.pending.Some? then |r.pending.value.awaiting| else 0
  }

  predicate Closer(before: Room, after: Room) {
    && before.pending.Some? && after.pending.Some? && after.table.limit == before.table.limit
    && (|after.table.members| < |before.table.members| ||
        (|after.table.members| == |before.table.members| &&
         |after.pending.value.awaiting| < |before.pending.value.awaiting|))
  }

  predicate Unmoved(before: Room, after: Room) {
    && after.phase == EpochTransition && after.epoch == before.epoch && after.pending == before.pending
    && Roster(after.table.members) == Roster(before.table.members) && after.table.limit == before.table.limit
  }

  // The acknowledgements still missing are those of before, unless the epoch or the room is over.
  predicate Steady(before: Room, after: Room) {
    after.epoch > before.epoch || after.phase == Destroyed || after.pending == before.pending
  }

  predicate Overdue(r: Room, now: Time) {
    r.pending.Some? && (now - r.pending.value.startedAt >= r.acknowledgeWithin || r.acknowledgeWithin <= 0.0)
  }

  predicate LosesMember(r: Room, c: ConnectionId) { c == r.hostConnection || MemberOf(r.entries, c).Some? }

  // The member on connection `c` has spent its rate limit once too often.
  predicate KicksAuthor(r: Room, now: Time, c: ConnectionId, kind: nat, e: Envelope) {
    && HasAckedPending(r, c) && RateLimited(kind)
    && MemberOf(r.entries, c) == Some(e.sender) && e.sender != HOST_ID
    && !Allow(BucketOf(r, e.sender), now).1
    && Allow(BucketOf(r, e.sender), now).0.violations >= RATE_LIMIT_TERMINATION
  }

  // The events that count during a transition: a missing acknowledgement, a lost member, a
  // deadline that passed, a member kicked for flooding, a request to close.
  predicate Effective(r: Room, event: Event, now: Time) {
    match event
    case EpochAck(c, epoch) =>
      r.pending.Some? && epoch == r.pending.value.epoch &&
      MemberOf(r.entries, c).Some? && MemberOf(r.entries, c).value in r.pending.value.awaiting
    case ConnectionLost(c) => LosesMember(r, c)
    case TimeoutExpired(c, acknowledgement) => if acknowledgement then Overdue(r, now) else LosesMember(r, c)
    case EpochMaintenance => Overdue(r, now)
    case ChatReceived(c, kind, e) => KicksAuthor(r, now, c, kind, e)
    case CloseRequested => true
    case TorStopped => true
    case _ => false
  }

  // ---- handlers in a transition --------------------------------------------------------------

  predicate Progress(r: Room, r': Room, effective: bool) {
    if effective then r'.phase != EpochTransition || Closer(r, r') else Unmoved(r, r')
  }

  lemma RemoveProgress(r: Room, id: MemberId, kicked: bool)
    requires RoomInv(r) && r.phase == EpochTransition && id != HOST_ID && PositionOfId(r.table.members, id).Some?
    ensures RemoveMember(r, id, kicked).Some? && RemoveMember(r, id, kicked).value.2.Some?
    ensures Closer(r, RemoveMember(r, id, kicked).value.0) && Steady(r, RemoveMember(r, id, kicked).value.0)
  {
    hide TableInv, LinkInv, QueueInv, LimitsInv, MarksInv, PendingInv, SendAll;
  }

  lemma AckProgress(r: Room, c: ConnectionId, epoch: nat)
    requires RoomInv(r) && r.phase == EpochTransition
    ensures Progress(r, OnEpochAck(r, c, epoch).0, Effective(r, EpochAck(c, epoch), r.now))
  {
    hide TableInv, LinkInv, QueueInv, LimitsInv, MarksInv, PendingInv;
  }

  lemma LostProgress(r: Room, c: ConnectionId)
    requires RoomInv(r) && r.phase == EpochTransition
    ensures Progress(r, OnConnectionLost(r, c).0, LosesMember(r, c)) && Steady(r, OnConnectionLost(r, c).0)
  {
    hide TableInv, LinkInv, QueueInv, LimitsInv, MarksInv, PendingInv, RemoveMember, HasMember;
    if c != r.hostConnection {
      MemberOfConnection(r, c);
      var r0 := r.(timeouts := TimeoutsNotOf(r.timeouts, c));
      WithdrawTimeoutsKeeps(r, c);
      MemberOfConnection(r0, c);
      var member := MemberOf(r0.entries, c);
      if member.Some? {
        FoundById(r0.table.members, c, member.value);
        RemoveProgress(r0, member.value, false);
      }
    }
  }

  lemma {:induction false} EvictShrinks(r: Room, ids: seq<MemberId>)
    ensures |EvictAll(r, ids).0.table.members| <= |r.table.members| && EvictAll(r, ids).0.table.limit == r.table.limit
    ensures EvictAll(r, ids).0.epoch == r.epoch
    ensures EvictAll(r, ids).2 != [] ==> |EvictAll(r, ids).0.table.members| < |r.table.members|
    decreases |ids|
  {
    if ids != [] { EvictShrinks(r, ids[..|ids| - 1]); }
  }

  lemma TimeoutProgress(r: Room)
    requires RoomInv(r) && r.phase == EpochTransition
    ensures Progress(r, OnEpochTimeout(r).0, Overdue(r, r.now)) && Steady(r, OnEpochTimeout(r).0)
  {
    hide TableInv, LinkInv, QueueInv, LimitsInv, MarksInv, EvictAll;
    if Overdue(r, r.now) && HOST_ID !in r.pending.value.awaiting {
      var late := r.pending.value.awaiting;
      assert late[0] in late && late[0] in IdSet(r.table.members);
      var r0 := r.(pending := None);
      EvictRemoves(r0, late);
      EvictShrinks(r0, late);
      var (r1, _, removed) := EvictAll(r0, late);
      var b := BeginEpochTransition(r1).0;
      QueueAllGoneFrame(b, removed, false);
      IdsOfIsIdSet(r1.table.members);
    }
  }

  lemma RelayStays(r: Room, c: ConnectionId, kind: nat, e: Envelope)
    requires r.phase == EpochTransition
    ensures Unmoved(r, OpenAndRelay(r, c, kind, e).0)
  {
    hide SendAll, ChatPlaintext;
    var plain := ChatPlaintext(r, kind, e);
    if e.epoch == r.epoch && Fresh(r.replay, e.sender, r.epoch, e.sequence) && plain.Ok? {
      var p := plain.value;
      if kind == MSG_COLOR && |p.data| == 1 && ColorFromIndex(p.data[0]).Some? {
        RecoloredFrame(r.(replay := Accepted(r.replay, e.sender, r.epoch, e.sequence)), e.sender,
          ColorFromIndex(p.data[0]).value);
        RecoloredLimit(r.(replay := Accepted(r.replay, e.sender, r.epoch, e.sequence)), e.sender,
          ColorFromIndex(p.data[0]).value);
      }
    }
  }

  lemma RecoloredLimit(r: Room, id: MemberId, color: Color)
    ensures Recolored(r, id, color).table.limit == r.table.limit
  {
  }

  lemma ChatProgress(r: Room, c: ConnectionId, kind: nat, e: Envelope)
    requires RoomInv(r) && r.phase == EpochTransition && HasAckedPending(r, c)
    ensures Progress(r, OnChatReceived(r, c, kind, e).0, KicksAuthor(r, r.now, c, kind, e))
    ensures Steady(r, OnChatReceived(r, c, kind, e).0)
  {
    hide TableInv, LinkInv, QueueInv, LimitsInv, MarksInv, PendingInv, OpenAndRelay, RemoveMember, Refilled, HasMember;
    var member := MemberOf(r.entries, c);
    if (RateLimited(kind) || kind == MSG_TIMEOUT_CHANGED) && member == Some(e.sender) {
      MemberOfConnection(r, c);
      FoundById(r.table.members, c, e.sender);
      var bucket := Allow(BucketOf(r, e.sender), r.now).0;
      var r1 := r.(limits := r.limits[e.sender := bucket]);
      LimitUpdateKeeps(r, e.sender, bucket);
      RelayStays(r, c, kind, e);
      RelayStays(r1, c, kind, e);
      HostIsNotRemoved(r1, true);
      if e.sender != HOST_ID { RemoveProgress(r1, e.sender, true); }
    }
  }

  lemma HostIsNotRemoved(r: Room, kicked: bool)
    ensures RemoveMember(r, HOST_ID, kicked).None?
  {
  }

  lemma InTransitionProgress(r: Room, event: Event)
    requires RoomInv(r) && r.phase == EpochTransition
    ensures Progress(r, HandleInTransition(r, event).0, Effective(r, event, r.now))
    ensures !event.EpochAck? ==> Steady(r, HandleInTransition(r, event).0)
  {
    hide RosterInv, MarksInv, EpochInv, OnEpochAck, OnConnectionLost, OnEpochTimeout, OnChatReceived, Closer,
      KicksAuthor, Overdue, LosesMember;
    match event
    case EpochAck(c, epoch) => AckProgress(r, c, epoch);
    case ConnectionLost(c) => LostProgress(r, c);
    case TimeoutExpired(c, acknowledgement) => if acknowledgement { TimeoutProgress(r); } else { LostProgress(r, c); }
    case EpochMaintenance => TimeoutProgress(r);
    case ChatReceived(c, kind, e) =>
      if HasAckedPending(r, c) { ChatProgress(r, c, kind, e); } else { WaitsForAck(r, c, kind, e); }
    case _ =>
  }

  lemma WaitsForAck(r: Room, c: ConnectionId, kind: nat, e: Envelope)
    requires !HasAckedPending(r, c)
    ensures !KicksAuthor(r, r.now, c, kind, e)
  {
  }

  // ---- every step -------------------------------------------------------------------------------

  // One event in a transition: if it counts, the transition is over or strictly closer to its
  // end; if it does not, the transition is exactly where it was. Nobody joins meanwhile.
  lemma {:induction false} TransitionProgress(r: Room, event: Event, now: Time)
    requires RoomInv(r) && r.phase == EpochTransition
    ensures Progress(r, Handle(r, event, now).0, Effective(r, event, now))
    ensures |Handle(r, event, now).0.table.members| <= |r.table.members|
    ensures event.JoinRequested? || event.HostAccepted? ==>
      Handle(r, event, now) == (r.(now := now), Err(EpochTransitionInProgress))
  {
    hide RosterInv, MarksInv, HandleInTransition, Effective, Progress;
    var at := r.(now := now);
    RoomAt(r, now);
    InTransitionProgress(at, event);
    EffectiveIgnoresClock(r, event, now);
    ProgressIgnoresClock(r, at, HandleInTransition(at, event).0, Effective(r, event, now));
    NoNewMembers(at, event);
    JoinsWait(at, event);
  }

  lemma EffectiveIgnoresClock(r: Room, event: Event, now: Time)
    ensures Effective(r.(now := now), event, now) == Effective(r, event, now)
  {
  }

  lemma ProgressIgnoresClock(r: Room, at: Room, r': Room, effective: bool)
    requires at == r.(now := at.now)
    ensures Progress(at, r', effective) == Progress(r, r', effective)
  {
  }

  lemma JoinsWait(r: Room, event: Event)
    ensures event.JoinRequested? || event.HostAccepted? ==>
      HandleInTransition(r, event) == (r, Err(EpochTransitionInProgress))
  {
  }

  lemma NoNewMembers(r: Room, event: Event)
    requires RoomInv(r) && r.phase == EpochTransition
    ensures |HandleInTransition(r, event).0.table.members| <= |r.table.members|
  {
    hide RoomInv, HandleInTransition, SendAll, WrapAll, AllQuiet, Survivors, QueueAllGone, QueueMemberJoined, NextEpoch,
      SameRoom, AllApart, IdSet, TableInv, RelayOk, OneLeft;
    var move := TransitionMoves(r, event);
    var r' := HandleInTransition(r, event).0;
    TransitionKeeps(r, event);
    TransitionIsPending(r);
    RoomTableIsApart(r);
    RoomTableIsApart(r');
    match move
    case Enroll(_) => assert false;
    case Depart(ids, _, _, _) =>
      CountMembers(r.table.members);
      CountMembers(r'.table.members);
      SurvivorsSubset(r.table.members, r'.table.members, ids);
    case _ => SameRoomCount(r, r');
  }

  lemma SameRoomCount(r: Room, r': Room)
    requires SameRoom(r, r')
    ensures |r'.table.members| == |r.table.members|
  {
  }

  lemma SurvivorsSubset(before: seq<Member>, after: seq<Member>, ids: seq<MemberId>)
    requires Survivors(before, after, ids)
    ensures IdSet(after) <= IdSet(before) && |IdSet(after)| <= |IdSet(before)|
  {
    SubsetSize(IdSet(after), IdSet(before));
  }

  lemma SubsetSize<T>(a: set<T>, b: set<T>)
    requires a <= b
    ensures |a| <= |b|
  {
    assert b == a + (b - a);
  }

  // Distinct ids: a table has as many ids as members.
  lemma {:induction false} CountMembers(members: seq<Member>)
    requires AllApart(members)
    ensures |IdSet(members)| == |members|
    decreases |members|
  {
    if members == [] { assert IdSet(members) == {}; }
    else {
      var before := members[..|members| - 1];
      var m := members[|members| - 1];
      CountMembers(before);
      assert IdSet(members) == IdSet(before) + {m.id};
      assert m.id !in IdSet(before) by {
        forall i | 0 <= i < |before| ensures before[i].id != m.id { assert Apart(members[i], members[|members| - 1]); }
      }
    }
  }

  // ---- runs inside a transition ---------------------------------------------------------------

  function After(r: Room, inputs: seq<Input>): Room
    decreases |inputs|
  {
    if inputs == [] then r
    else Handle(After(r, inputs[..|inputs| - 1]), inputs[|inputs| - 1].event, inputs[|inputs| - 1].now).0
  }

  // How many of the inputs count, each judged in the state it meets.
  function EffectiveIn(r: Room, inputs: seq<Input>): nat
    decreases |inputs|
  {
    if inputs == [] then 0
    else
      var before := inputs[..|inputs| - 1];
      var last := inputs[|inputs| - 1];
      EffectiveIn(r, before) + if Effective(After(r, before), last.event, last.now) then 1 else 0
  }

  predicate StaysInTransition(r: Room, inputs: seq<Input>) {
    forall k :: 0 <= k <= |inputs| ==> After(r, inputs[..k]).phase == EpochTransition
  }

  lemma RankBound(r: Room)
    requires RoomInv(r) && r.phase == EpochTransition
    ensures r.pending.Some? && 0 < |r.pending.value.awaiting| <= |r.table.members| <= r.table.limit <= MAX_MEMBERS
    ensures Rank(r) <= MAX_MEMBERS * (MAX_MEMBERS + 2)
  {
    hide LinkInv, QueueInv, LimitsInv, MarksInv;
    var n := |r.table.members|;
    var l := r.table.limit;
    assert n * (l + 1) <= MAX_MEMBERS * (MAX_MEMBERS + 1) by { Products(n, l + 1, MAX_MEMBERS, MAX_MEMBERS + 1); }
  }

  lemma Products(a: nat, b: nat, c: nat, d: nat)
    requires a <= c && b <= d
    ensures a * b <= c * d
  {
    assert a * b <= c * b;
    assert c * b <= c * d;
  }

  lemma CloserRanks(r: Room, r': Room)
    requires Closer(r, r') && |r'.pending.value.awaiting| <= |r'.table.members| <= r.table.limit
    ensures Rank(r') < Rank(r)
  {
    if |r'.table.members| < |r.table.members| {
      FewerMembers(|r'.table.members|, |r.table.members|, r.table.limit);
    }
  }

  lemma FewerMembers(n': nat, n: nat, limit: nat)
    requires n' < n
    ensures n' * (limit + 1) + limit < n * (limit + 1)
  {
    Products(n' + 1, limit + 1, n, limit + 1);
    assert (n' + 1) * (limit + 1) == n' * (limit + 1) + limit + 1;
  }

  lemma UnmovedRanks(r: Room, r': Room)
    requires Unmoved(r, r')
    ensures Rank(r') == Rank(r)
  {
    assert |Roster(r'.table.members)| == |Roster(r.table.members)|;
  }

  lemma {:induction false} AfterHolds(r: Room, inputs: seq<Input>)
    requires RoomInv(r) && AllAdmissible(inputs)
    ensures RoomInv(After(r, inputs))
    decreases |inputs|
  {
    hide RoomInv, Handle;
    if inputs != [] {
      AfterHolds(r, inputs[..|inputs| - 1]);
      HandleKeeps(After(r, inputs[..|inputs| - 1]), inputs[|inputs| - 1].event, inputs[|inputs| - 1].now);
    }
  }

  lemma {:induction false} RankDecreases(r: Room, inputs: seq<Input>)
    requires RoomInv(r) && AllAdmissible(inputs) && StaysInTransition(r, inputs)
    ensures EffectiveIn(r, inputs) + Rank(After(r, inputs)) <= Rank(r)
    decreases |inputs|
  {
    hide RoomInv, Handle, Rank, Effective, Closer, Unmoved;
    assert inputs[..|inputs|] == inputs;
    if inputs != [] {
      var before := inputs[..|inputs| - 1];
      var last := inputs[|inputs| - 1];
      forall k | 0 <= k <= |before| ensures After(r, before[..k]).phase == EpochTransition {
        assert before[..k] == inputs[..k];
      }
      assert before[..|before|] == before;
      RankDecreases(r, before);
      AfterHolds(r, before);
      AfterHolds(r, inputs);
      var now := After(r, before);
      TransitionProgress(now, last.event, last.now);
      RankBound(After(r, inputs));
      if Effective(now, last.event, last.now) {
        CloserLimit(now, After(r, inputs)); CloserRanks(now, After(r, inputs));
      }
      else { UnmovedRanks(now, After(r, inputs)); }
    }
  }

  lemma CloserLimit(r: Room, r': Room)
    requires Closer(r, r')
    ensures r'.table.limit == r.table.limit && r.pending.Some? && r'.pending.Some?
  {
  }

  // A transition does not outlast `Rank` counting events, a number bounded by the room limit
  // alone: whatever else arrives in between, by then the room was activated or closed.
  lemma {:induction false} TransitionEnds(launch: Launch, inputs: seq<Input>, more: seq<Input>)
    requires LaunchOk(launch) && AllAdmissible(inputs) && AllAdmissible(more)
    requires EffectiveIn(Run(launch, inputs).room, more) >= Rank(Run(launch, inputs).room)
      || EffectiveIn(Run(launch, inputs).room, more) >= MAX_MEMBERS * (MAX_MEMBERS + 2)
    ensures exists k :: 0 <= k <= |more| && After(Run(launch, inputs).room, more[..k]).phase != EpochTransition
  {
    hide RoomInv, Run, Rank, EffectiveIn;
    RunHolds(launch, inputs);
    RunRoom(Run(launch, inputs));
    FewWhileStaying(Run(launch, inputs).room, more);
  }

  lemma FewWhileStaying(r: Room, inputs: seq<Input>)
    requires RoomInv(r) && AllAdmissible(inputs)
    ensures StaysInTransition(r, inputs) ==>
      EffectiveIn(r, inputs) < Rank(r) && EffectiveIn(r, inputs) < MAX_MEMBERS * (MAX_MEMBERS + 2)
  {
    hide RoomInv, Rank, EffectiveIn, Handle;
    if StaysInTransition(r, inputs) {
      assert inputs[..0] == [] && inputs[..|inputs|] == inputs;
      RankDecreases(r, inputs);
      RankBound(r);
      AfterHolds(r, inputs);
      RankBound(After(r, inputs));
      RankPositive(After(r, inputs));
    }
  }

  lemma RankPositive(r: Room)
    requires r.pending.Some? && 0 < |r.pending.value.awaiting|
    ensures Rank(r) > 0
  {
  }
}
