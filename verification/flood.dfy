// The flood limit: how many limited actions of one member a room lets pass in any window of time.
module Flooding {
  import opened Wrappers
  import opened RoomTypes
  import opened Members
  import opened Registry
  import opened Requests
  import opened Replay
  import opened RateLimit
  import opened Actor
  import opened ActorInvariants
  import opened ActorMoves
  import opened Views
  import opened Channels
  import opened Agreement
  import opened Restarting
  import opened Runs
  import opened MemberViews
  import opened KeySeparation
  import opened Transitions
  import opened Gate

  // ---- one bucket ----------------------------------------------------------------------------

  // The tokens a bucket would hold at time `t`.
  function Credit(b: Bucket, t: Time): real { Refilled(b, t).tokens }

  predicate BucketOk(b: Bucket, t: Time) {
    b.lastRefill <= t && 0.0 <= b.tokens <= b.capacity && 0.0 <= b.refillPerSecond
  }

  lemma Spread(rate: real, a: real, b: real)
    requires 0.0 <= rate && 0.0 <= b
    ensures Flow(rate, a + b) == Flow(rate, a) + Flow(rate, b) && 0.0 <= Flow(rate, b)
    ensures Flow(rate, 0.0) == 0.0 && Flow(1.0, a) == a
  {
  }

  lemma {:induction false} CreditGrows(b: Bucket, s: Time, t: Time)
    requires BucketOk(b, s) && s <= t
    ensures Credit(b, s) <= Credit(b, t) <= Credit(b, s) + Flow(b.refillPerSecond, t - s)
    ensures Credit(b, t) <= b.capacity
  {
    Spread(b.refillPerSecond, s - b.lastRefill, t - s);
    Spread(b.refillPerSecond, 0.0, s - b.lastRefill);
    assert (s - b.lastRefill) + (t - s) == t - b.lastRefill;
  }

  // A call pays for what it lets pass.
  lemma {:induction false} AllowPays(b: Bucket, t: Time)
    requires BucketOk(b, t)
    ensures var (b', allowed) := Allow(b, t);
      && BucketOk(b', t) && b'.capacity == b.capacity && b'.refillPerSecond == b.refillPerSecond
      && Credit(b', t) + (if allowed then 1.0 else 0.0) == Credit(b, t)
      && 0.0 <= Credit(b', t)
  {
    Spread(b.refillPerSecond, 0.0, t - b.lastRefill);
  }

  predicate Nondecreasing(times: seq<Time>) {
    forall i, j :: 0 <= i <= j < |times| ==> times[i] <= times[j]
  }

  function AfterCalls(b: Bucket, times: seq<Time>): Bucket
    decreases |times|
  {
    if times == [] then b else Allow(AfterCalls(b, times[..|times| - 1]), times[|times| - 1]).0
  }

  function AllowedIn(b: Bucket, times: seq<Time>): nat
    decreases |times|
  {
    if times == [] then 0 else
      var before := times[..|times| - 1];
      AllowedIn(b, before) + if Allow(AfterCalls(b, before), times[|times| - 1]).1 then 1 else 0
  }

  lemma {:induction false} CallsPay(b: Bucket, times: seq<Time>)
    requires times != [] && Nondecreasing(times) && BucketOk(b, times[0])
    ensures var b' := AfterCalls(b, times);
      var last := times[|times| - 1];
      && BucketOk(b', last) && b'.capacity == b.capacity && b'.refillPerSecond == b.refillPerSecond
      && AllowedIn(b, times) as real + Credit(b', last) <= b.capacity + Flow(b.refillPerSecond, last - times[0])
    decreases |times|
  {
    hide Allow, Credit, Flow;
    var before := times[..|times| - 1];
    var last := times[|times| - 1];
    if before == [] {
      CreditGrows(b, last, last);
      Spread(b.refillPerSecond, 0.0, last - last);
      AllowPays(b, last);
    } else {
      CallsPay(b, before);
      var b1 := AfterCalls(b, before);
      var t := before[|before| - 1];
      CreditGrows(b1, t, last);
      AllowPays(b1, last);
      Spread(b.refillPerSecond, t - times[0], last - t);
      assert (t - times[0]) + (last - t) == last - times[0];
    }
  }

  // The token bucket: however its calls are spaced, between the first and the last of them it
  // lets at most its capacity pass, plus what flowed in meanwhile.
  lemma {:induction false} BucketBound(b: Bucket, times: seq<Time>)
    requires times != [] && Nondecreasing(times) && BucketOk(b, times[0])
    ensures AllowedIn(b, times) as real <= b.capacity + b.refillPerSecond * (times[|times| - 1] - times[0])
  {
    hide AfterCalls, AllowedIn, BucketOk, Credit;
    CallsPay(b, times);
    var last := times[|times| - 1];
    var b' := AfterCalls(b, times);
    CreditPositive(b', last);
  }

  // ---- the limiters of a room -------------------------------------------------------------------

  // The limiters of the members that stay are as they were.
  predicate LimitsKept(r: Room, r': Room) {
    && (forall id :: id in r'.limits ==> id in r.limits && r'.limits[id] == r.limits[id])
    && (forall id :: id in r.limits && id in IdSet(r'.table.members) ==> id in r'.limits)
  }

  // The event asks the limiter of member `id`.
  predicate Charges(r: Room, event: Event, id: MemberId) {
    && event.ChatReceived? && RateLimited(event.kind)
    && MemberOf(r.entries, event.connection) == Some(id) && event.envelope.sender == id
    && PositionOfId(r.table.members, id).Some?
    && r.phase != Destroyed && (r.phase == EpochTransition ==> HasAckedPending(r, event.connection))
  }

  // A limited action of member `id` gets past the limiter.
  predicate Passes(r: Room, event: Event, now: Time, id: MemberId) {
    Charges(r, event, id) && Allow(BucketOf(r, id), now).1
  }

  function Charged(r: Room, event: Event, now: Time): Room {
    if event.ChatReceived? && Charges(r, event, event.envelope.sender)
    then r.(limits := r.limits[event.envelope.sender := Allow(BucketOf(r, event.envelope.sender), now).0])
    else r
  }

  lemma DropKeepsLimits(r: Room, i: nat)
    requires AllApart(r.table.members) && i < |r.table.members|
    ensures LimitsKept(r, DropMember(r, i))
  {
    var m := r.table.members[i];
    var rest := Without(r.table.members, i);
    forall k | 0 <= k < |rest| ensures rest[k].id != m.id {
      assert rest[k] == r.table.members[if k < i then k else k + 1];
    }
  }

  lemma RemoveKeepsLimits(r: Room, id: MemberId, kicked: bool)
    requires AllApart(r.table.members)
    ensures RemoveMember(r, id, kicked).Some? ==> LimitsKept(r, RemoveMember(r, id, kicked).value.0)
  {
    hide AllApart, SendAll, WrapAll, IdSet;
    var p := PositionOfId(r.table.members, id);
    if p.Some? { DropKeepsLimits(r, p.value); }
  }

  lemma LimitsChain(a: Room, b: Room, c: Room)
    requires LimitsKept(a, b) && LimitsKept(b, c) && IdSet(c.table.members) <= IdSet(b.table.members)
    ensures LimitsKept(a, c)
  {
    hide IdSet;
  }

  lemma SelfKeepsLimits(r: Room, r': Room)
    requires r'.limits == r.limits
    ensures LimitsKept(r, r')
  {
  }

  lemma {:induction false} EvictKeepsLimits(r: Room, ids: seq<MemberId>)
    requires RosterInv(r) && HOST_ID !in ids
    ensures LimitsKept(r, EvictAll(r, ids).0)
    decreases |ids|
  {
    hide LimitsKept, RosterInv, IdSet, DropMember;
    if ids == [] { SelfKeepsLimits(r, r); }
    else {
      var before := ids[..|ids| - 1];
      assert forall id :: id in before ==> id in ids;
      EvictKeepsLimits(r, before);
      EvictKeeps(r, before);
      EvictKeeps(r, ids);
      var r1 := EvictAll(r, before).0;
      RosterApart(r1);
      var p := PositionOfId(r1.table.members, ids[|ids| - 1]);
      if p.Some? {
        DropKeepsLimits(r1, p.value);
        DropIds(r1, p.value);
        LimitsChain(r, r1, DropMember(r1, p.value));
      }
    }
  }

  lemma DropIds(r: Room, i: nat)
    requires i < |r.table.members|
    ensures IdSet(DropMember(r, i).table.members) <= IdSet(r.table.members)
  {
    var rest := DropMember(r, i).table.members;
    forall k | 0 <= k < |rest| ensures rest[k].id in IdSet(r.table.members) {
      assert rest[k] == r.table.members[if k < i then k else k + 1];
    }
  }

  lemma RosterApart(r: Room)
    requires RosterInv(r)
    ensures AllApart(r.table.members)
  {
  }

  lemma LimitsFrame(r: Room, a: Room, b: Room)
    requires LimitsKept(r, a) && b.limits == a.limits && b.table == a.table
    ensures LimitsKept(r, b)
  {
  }

  lemma TimeoutKeepsLimits(r: Room)
    requires RoomInv(r) && r.phase != Destroyed
    ensures LimitsKept(r, OnEpochTimeout(r).0)
  {
    hide LimitsKept, RosterInv, MarksInv, EvictAll, WrapAll;
    SelfKeepsLimits(r, r);
    SelfKeepsLimits(r, r.(pending := None, phase := Destroyed));
    if r.pending.Some? && HOST_ID !in r.pending.value.awaiting {
      var r0 := r.(pending := None);
      assert RosterInv(r0) by { RosterOfPending(r); }
      EvictKeepsLimits(r0, r.pending.value.awaiting);
      var (r1, _, removed) := EvictAll(r0, r.pending.value.awaiting);
      var b := BeginEpochTransition(r1).0;
      QueueAllGoneFrame(b, removed, false);
      LimitsFrame(r0, r1, QueueAllGone(b, removed, false));
      SameLimitsBefore(r, r0, QueueAllGone(b, removed, false));
    }
  }

  lemma RosterOfPending(r: Room)
    requires RosterInv(r)
    ensures RosterInv(r.(pending := None))
  {
  }

  lemma SameLimitsBefore(r: Room, r0: Room, r': Room)
    requires LimitsKept(r0, r') && r0.limits == r.limits
    ensures LimitsKept(r, r')
  {
  }

  lemma LostKeepsLimits(r: Room, c: ConnectionId)
    requires RoomInv(r)
    ensures LimitsKept(r, OnConnectionLost(r, c).0)
  {
    hide LimitsKept, RemoveMember, RequestOf, MemberOf, TakeAt, RoomInv, AllApart;
    var r0 := r.(timeouts := TimeoutsNotOf(r.timeouts, c));
    var r' := OnConnectionLost(r, c).0;
    RoomTableIsApart(r);
    if r'.limits == r.limits { SelfKeepsLimits(r, r'); }
    if MemberOf(r0.entries, c).Some? { LostMemberLimits(r, r0, c, MemberOf(r0.entries, c).value); }
    else if PositionOfConnection(r0.table.members, c).Some? {
      LostMemberLimits(r, r0, c, r0.table.members[PositionOfConnection(r0.table.members, c).value].id);
    }
  }

  lemma LostMemberLimits(r: Room, r0: Room, c: ConnectionId, id: MemberId)
    requires AllApart(r0.table.members) && r0.limits == r.limits
    ensures var gone := RemoveMember(r0, id, false);
      gone.Some? ==> LimitsKept(r, gone.value.0.(entries := gone.value.0.entries - {c}))
  {
    hide LimitsKept, RemoveMember, AllApart;
    RemoveKeepsLimits(r0, id, false);
    var gone := RemoveMember(r0, id, false);
    if gone.Some? {
      SameLimitsBefore(r, r0, gone.value.0);
      LimitsFrame(r, gone.value.0, gone.value.0.(entries := gone.value.0.entries - {c}));
    }
  }

  lemma RelayKeepsLimits(r: Room, c: ConnectionId, kind: nat, e: Envelope)
    ensures OpenAndRelay(r, c, kind, e).0.limits == r.limits
  {
    hide SendAll, ChatPlaintext;
  }

  lemma ChatKeepsLimits(r: Room, c: ConnectionId, kind: nat, e: Envelope)
    requires RoomInv(r) && r.phase != Destroyed && (r.phase == EpochTransition ==> HasAckedPending(r, c))
    ensures LimitsKept(Charged(r, ChatReceived(c, kind, e), r.now), OnChatReceived(r, c, kind, e).0)
  {
    hide LimitsKept, RemoveMember, RoomInv, AllApart, OpenAndRelay, Allow;
    RoomTableIsApart(r);
    SelfKeepsLimits(r, r);
    var r1 := Charged(r, ChatReceived(c, kind, e), r.now);
    SelfKeepsLimits(r1, r1);
    RelayKeepsLimits(r, c, kind, e);
    RelayKeepsLimits(r1, c, kind, e);
    SelfKeepsLimits(r, OpenAndRelay(r, c, kind, e).0);
    SelfKeepsLimits(r1, OpenAndRelay(r1, c, kind, e).0);
    RemoveKeepsLimits(r1, e.sender, true);
  }

  lemma CommandKeepsLimits(r: Room, event: Event)
    requires RoomInv(r) && (event.OnHostCommand? || event.OnMemberCommand? || event.MemberDeparted?)
    ensures LimitsKept(r, HandleSettled(r, event).0)
  {
    hide LimitsKept, RemoveMember, RoomInv, AllApart, SendAll, WrapAll, CloseAdmissions, Resolve;
    RoomTableIsApart(r);
    var r' := HandleSettled(r, event).0;
    if r'.limits == r.limits { SelfKeepsLimits(r, r'); }
    match event
    case OnHostCommand(Kick(target)) =>
      var found := Resolve(r, target);
      if found.Ok? && found.value < |r.table.members| { RemoveKeepsLimits(r, r.table.members[found.value].id, true); }
    case OnMemberCommand(c, Leave) =>
      if MemberOf(r.entries, c).Some? { RemoveKeepsLimits(r, MemberOf(r.entries, c).value, false); }
    case MemberDeparted(id) => RemoveKeepsLimits(r, id, false);
    case OnHostCommand(NewId) => ClosingKeepsLimits(r);
    case OnHostCommand(ReqOff) => ClosingKeepsLimits(r);
    case _ =>
  }

  lemma ClosingKeepsLimits(r: Room)
    ensures OnNewId(r).0.limits == r.limits && SetPolicy(r, false).0.limits == r.limits
  {
    hide SendAll;
  }

  lemma AdmitKeepsLimits(r: Room, id: RequestId)
    ensures OnAccept(r, id).0.limits == r.limits && OnReject(r, id).0.limits == r.limits
  {
    hide SendAll, WrapAll;
  }

  lemma AckKeepsLimits(r: Room, c: ConnectionId, epoch: nat)
    ensures OnEpochAck(r, c, epoch).0.limits == r.limits
  {
  }

  // An event charges the limiter of at most one member and leaves those of the others alone.
  lemma {:induction false} HandleKeepsLimits(r: Room, event: Event)
    requires RoomInv(r) && r.phase != Destroyed
    ensures LimitsKept(Charged(r, event, r.now), if r.phase == EpochTransition then
      HandleInTransition(r, event).0 else HandleSettled(r, event).0)
  {
    hide LimitsKept, RoomInv, OnConnectionLost, OnEpochTimeout, OnChatReceived, OnHostCommandAt, OnMemberCommandAt,
      OnMemberDeparted, OnAccept, OnReject, OnEpochAck, Allow, Charges;
    var r' := if r.phase == EpochTransition then HandleInTransition(r, event).0 else HandleSettled(r, event).0;
    if r'.limits == r.limits { SelfKeepsLimits(r, r'); }
    match event
    case ConnectionLost(c) => LostKeepsLimits(r, c);
    case TimeoutExpired(c, _) => LostKeepsLimits(r, c); TimeoutKeepsLimits(r);
    case EpochMaintenance => TimeoutKeepsLimits(r);
    case EpochAck(c, epoch) => AckKeepsLimits(r, c, epoch);
    case HostAccepted(id) => AdmitKeepsLimits(r, id);
    case HostRejected(id) => AdmitKeepsLimits(r, id);
    case OnHostCommand(_) => CommandOrBusy(r, event);
    case OnMemberCommand(_, _) => CommandOrBusy(r, event);
    case MemberDeparted(_) => CommandOrBusy(r, event);
    case ChatReceived(c, kind, e) =>
      if r.phase == EpochTransition && !HasAckedPending(r, c) { Uncharged(r, event); } else {
        ChatKeepsLimits(r, c, kind, e);
      }
    case _ =>
  }

  lemma Uncharged(r: Room, event: Event)
    requires event.ChatReceived? && r.phase == EpochTransition && !HasAckedPending(r, event.connection)
    ensures Charged(r, event, r.now) == r
  {
  }

  lemma CommandOrBusy(r: Room, event: Event)
    requires RoomInv(r) && (event.OnHostCommand? || event.OnMemberCommand? || event.MemberDeparted?)
    ensures LimitsKept(r, if r.phase == EpochTransition then
      HandleInTransition(r, event).0 else HandleSettled(r, event).0)
  {
    hide LimitsKept, RoomInv, HandleSettled;
    if r.phase == EpochTransition { SelfKeepsLimits(r, HandleInTransition(r, event).0); }
    else { CommandKeepsLimits(r, event); }
  }

  // ---- the limit over a window of a run -----------------------------------------------------------

  predicate LimitersOk(r: Room, t: Time) {
    forall id :: id in r.limits ==>
      BucketOk(r.limits[id], t) && r.limits[id].capacity == MEMBER_BURST as real &&
        r.limits[id].refillPerSecond == MEMBER_RATE as real
  }

  // `id` was a member and is none any more, or will only become one.
  predicate Absent(r: Room, id: MemberId) { id !in IdSet(r.table.members) }

  predicate Gone(r: Room, id: MemberId) { Absent(r, id) && id < r.table.nextId }

  function PassedIn(r: Room, inputs: seq<Input>, id: MemberId): nat
    decreases |inputs|
  {
    if inputs == [] then 0 else
      var before := inputs[..|inputs| - 1];
      var last := inputs[|inputs| - 1];
      PassedIn(r, before, id) + if Passes(After(r, before), last.event, last.now, id) then 1 else 0
  }

  predicate Monotone(inputs: seq<Input>) {
    forall i, j :: 0 <= i <= j < |inputs| ==> inputs[i].now <= inputs[j].now
  }

  lemma BucketOfOk(r: Room, id: MemberId, t: Time)
    requires LimitersOk(r, t)
    ensures var b := BucketOf(r, id); BucketOk(b, t) && b.capacity == 5.0 && b.refillPerSecond == 1.0
    ensures id !in r.limits ==> Credit(BucketOf(r, id), t) == 5.0
  {
  }

  lemma GoneStays(r: Room, event: Event, now: Time, id: MemberId)
    requires RoomInv(r) && Gone(r, id)
    ensures Gone(Handle(r, event, now).0, id)
  {
    hide RoomInv, MoveOk, Handle, SameRoom, IdSet, AllApart;
    var move := HandleMoves(r, event, now);
    var (r', reply) := Handle(r, event, now);
    RoomKeyed(r);
    RoomTableIsApart(r);
    if WithinEpoch(move) {
      WithinIsSame(r, r', Sent(reply), move);
      SameIdsAndNext(r, r');
    } else if r'.table.members != [] {
      MoveSuccessors(r, r', Sent(reply), move);
      GoneSucceeds(r.table.members, r'.table.members, r.table.nextId, r'.table.nextId, r'.epoch, id);
    } else {
      AcrossNext(r, r', Sent(reply), move);
      NobodyIn(r'.table.members, id);
    }
  }

  lemma AcrossNext(r: Room, r': Room, actions: seq<Action>, move: Move)
    requires r.nextKey >= 1 && MoveOk(r, r', actions, move) && !WithinEpoch(move)
    ensures r.table.nextId <= r'.table.nextId
  {
    hide QueueMemberJoined, QueueAllGone, WrapAll, OneLeft, Survivors;
  }

  lemma NobodyIn(members: seq<Member>, id: MemberId)
    requires members == []
    ensures id !in IdSet(members)
  {
  }

  lemma SameIdsAndNext(r: Room, r': Room)
    requires SameRoom(r, r')
    ensures IdSet(r'.table.members) == IdSet(r.table.members) && r.table.nextId <= r'.table.nextId
  {
    SameMembers(r, r');
  }

  lemma GoneSucceeds(before: seq<Member>, after: seq<Member>, nextId: MemberId, nextId': MemberId, epoch: nat,
    id: MemberId)
    requires Successors(before, after, nextId, nextId', epoch) && id !in IdSet(before) && id < nextId
    ensures id !in IdSet(after) && id < nextId'
  {
    forall i | 0 <= i < |after| ensures after[i].id != id {
      if after[i] in before {
        var k :| 0 <= k < |before| && before[k] == after[i];
        assert before[k].id in IdSet(before);
      }
    }
  }

  // Charging a limiter is a call of its bucket, and nobody else's.
  lemma ChargePays(r: Room, event: Event, s: Time, now: Time, id: MemberId)
    requires LimitersOk(r, s) && s <= now
    ensures var r1 := Charged(r, event, now);
      && LimitersOk(r1, now)
      && Credit(BucketOf(r1, id), now) +
        (if Passes(r, event, now, id) then 1.0 else 0.0) <= Credit(BucketOf(r, id), s) + (now - s)
      && 0.0 <= Credit(BucketOf(r1, id), now)
  {
    hide Allow, Charges, BucketOk, Credit, Flow;
    forall k | k in r.limits ensures BucketOk(r.limits[k], now) { LaterOk(r.limits[k], s, now); }
    BucketOfOk(r, id, s);
    CreditGrows(BucketOf(r, id), s, now);
    Spread(1.0, now - s, 0.0);
    BucketOfOk(r, id, now);
    AllowPays(BucketOf(r, id), now);
    CreditPositive(BucketOf(r, id), now);
    if event.ChatReceived? {
      BucketOfOk(r, event.envelope.sender, now);
      AllowPays(BucketOf(r, event.envelope.sender), now);
    }
    ChargesOne(r, event, id);
  }

  lemma CreditPositive(b: Bucket, t: Time)
    requires BucketOk(b, t)
    ensures 0.0 <= Credit(b, t)
  {
    Spread(b.refillPerSecond, 0.0, t - b.lastRefill);
  }

  lemma ChargesOne(r: Room, event: Event, id: MemberId)
    ensures Charges(r, event, id) ==> event.ChatReceived? && event.envelope.sender == id
  {
  }

  lemma LaterOk(b: Bucket, s: Time, t: Time)
    requires BucketOk(b, s) && s <= t
    ensures BucketOk(b, t)
  {
  }

  // The limiter that answers for `id` after the event is the charged one.
  lemma SameBucket(r1: Room, r': Room, now: Time, id: MemberId)
    requires LimitsKept(r1, r') && LimitersOk(r1, now)
    ensures LimitersOk(r', now)
    ensures id in IdSet(r'.table.members) || id !in r1.limits ==> BucketOf(r', id) == BucketOf(r1, id)
  {
  }

  lemma ClocklessCharge(r: Room, event: Event, now: Time)
    ensures Charged(r.(now := now), event, now) == Charged(r, event, now).(now := now)
  {
    hide Allow;
  }

  lemma ChargedBucket(r: Room, event: Event, now: Time)
    requires RoomInv(r)
    ensures LimitsKept(Charged(r, event, now), Handle(r, event, now).0)
  {
    hide RoomInv, Charged, HandleInTransition, HandleSettled, LimitsKept;
    var at := r.(now := now);
    RoomAt(r, now);
    ClocklessCharge(r, event, now);
    if r.phase == Destroyed { ClosedCharge(r, event, now); SelfKeepsLimits(r, at); }
    else {
      HandleKeepsLimits(at, event);
      SameLimitsBefore(Charged(r, event, now), Charged(at, event, now), Handle(r, event, now).0);
    }
  }

  lemma ClosedCharge(r: Room, event: Event, now: Time)
    requires r.phase == Destroyed
    ensures Charged(r, event, now) == r
  {
  }

  lemma StrangersHaveNoLimiter(r: Room, id: MemberId)
    requires RoomInv(r) && Absent(r, id)
    ensures id !in r.limits
    ensures forall event, now :: !Passes(r, event, now, id)
  {
    hide TableInv, LinkInv, QueueInv, MarksInv, EpochInv;
  }

  lemma NewIdsAreAbsent(r: Room, id: MemberId)
    requires RoomInv(r) && id >= r.table.nextId
    ensures Absent(r, id)
  {
    hide LinkInv, QueueInv, MarksInv, EpochInv;
  }

  // What one event does to the credit of member `id`.
  lemma StepPays(r: Room, event: Event, s: Time, now: Time, id: MemberId)
    requires RoomInv(r) && LimitersOk(r, s) && s <= now && Admissible(event)
    ensures var r' := Handle(r, event, now).0;
      && LimitersOk(r', now) && r.table.nextId <= r'.table.nextId
      && (Gone(r, id) ==> Gone(r', id) && !Passes(r, event, now, id))
      && (!Gone(r', id) ==>
          Credit(BucketOf(r', id), now) +
            (if Passes(r, event, now, id) then 1.0 else 0.0) <= Credit(BucketOf(r, id), s) + (now - s))
      && (if Passes(r, event, now, id) then 1.0 else 0.0) <= Credit(BucketOf(r, id), s) + (now - s)
  {
    hide RoomInv, LimitersOk, Handle, Credit, BucketOf, BucketOk, Charges, Charged, LimitsKept, IdSet, Passes;
    var r1 := Charged(r, event, now);
    var r' := Handle(r, event, now).0;
    ChargePays(r, event, s, now, id);
    ChargedBucket(r, event, now);
    SameBucket(r1, r', now, id);
    HandleKeeps(r, event, now);
    NextIdGrows(r, event, now);
    if Gone(r, id) { GoneStays(r, event, now, id); StrangersHaveNoLimiter(r, id); }
    else if Absent(r', id) && id >= r'.table.nextId {
      NewIdsAreAbsent(r, id);
      StrangersHaveNoLimiter(r, id);
      StrangersHaveNoLimiter(r', id);
      BucketOfOk(r, id, s);
      BucketOfOk(r', id, now);
    }
  }

  lemma NextIdGrows(r: Room, event: Event, now: Time)
    requires RoomInv(r)
    ensures r.table.nextId <= Handle(r, event, now).0.table.nextId
  {
    hide RosterInv, MarksInv, EpochInv, MoveOk, Handle, SameRoom;
    var move := HandleMoves(r, event, now);
    var (r', reply) := Handle(r, event, now);
    RoomKeyed(r);
    if WithinEpoch(move) { WithinIsSame(r, r', Sent(reply), move); SameIdsAndNext(r, r'); }
    else { AcrossNext(r, r', Sent(reply), move); }
  }

  lemma {:induction false} WindowPays(r: Room, inputs: seq<Input>, id: MemberId)
    requires RoomInv(r) && AllAdmissible(inputs) && inputs != [] && Monotone(inputs) && LimitersOk(r, inputs[0].now)
    ensures var last := inputs[|inputs| - 1].now;
      var r' := After(r, inputs);
      && LimitersOk(r', last)
      && PassedIn(r, inputs, id) as real <= 5.0 + (last - inputs[0].now)
      && (!Gone(r', id) ==>
        PassedIn(r, inputs, id) as real + Credit(BucketOf(r', id), last) <= 5.0 + (last - inputs[0].now))
    decreases |inputs|
  {
    hide RoomInv, Handle, LimitersOk, Gone, Passes, Credit, BucketOf;
    var before := inputs[..|inputs| - 1];
    var last := inputs[|inputs| - 1];
    AfterHolds(r, before);
    if before == [] {
      StepPays(r, last.event, last.now, last.now, id);
      FullCredit(r, id, last.now);
    } else {
      WindowPays(r, before, id);
      StepPays(After(r, before), last.event, before[|before| - 1].now, last.now, id);
    }
  }

  lemma FullCredit(r: Room, id: MemberId, t: Time)
    requires LimitersOk(r, t)
    ensures Credit(BucketOf(r, id), t) <= 5.0
  {
    hide BucketOf, Credit;
    BucketOfOk(r, id, t);
    CreditGrows(BucketOf(r, id), t, t);
    Spread(1.0, t - t, 0.0);
  }

  // In any run, in any window of it, at most five rate-limited actions of one member pass, plus
  // one for every second the window lasts.
  lemma {:induction false} FloodBound(launch: Launch, inputs: seq<Input>, window: seq<Input>, id: MemberId)
    requires LaunchOk(launch) && AllAdmissible(inputs + window) && Monotone(inputs + window) && window != []
    ensures PassedIn(Run(launch, inputs).room, window, id) as real <= 5.0 + (window[|window| - 1].now - window[0].now)
  {
    hide RunInv, RoomInv, LimitersOk, Run, PassedIn;
    PrefixAdmissible(inputs, window);
    assert forall i :: 0 <= i < |window| ==> (inputs + window)[|inputs| + i] == window[i];
    RunHolds(launch, inputs);
    RunRoom(Run(launch, inputs));
    MonotonePrefix(inputs, window);
    LimitersHold(launch, inputs, window[0].now);
    WindowPays(Run(launch, inputs).room, window, id);
  }

  lemma MonotonePrefix(inputs: seq<Input>, window: seq<Input>)
    requires Monotone(inputs + window) && window != []
    ensures Monotone(inputs) && Monotone(window) && forall i :: 0 <= i < |inputs| ==> inputs[i].now <= window[0].now
  {
    var all := inputs + window;
    assert forall i :: 0 <= i < |inputs| ==> all[i] == inputs[i];
    assert forall i :: 0 <= i < |window| ==> all[|inputs| + i] == window[i];
  }

  lemma {:induction false} LimitersHold(launch: Launch, inputs: seq<Input>, t: Time)
    requires LaunchOk(launch) && AllAdmissible(inputs) && Monotone(inputs)
    requires forall i :: 0 <= i < |inputs| ==> inputs[i].now <= t
    ensures LimitersOk(Run(launch, inputs).room, t)
    decreases |inputs|
  {
    hide RunInv, RoomInv, Handle, LimitersOk;
    if inputs == [] { NoLimitersYet(launch, t); }
    else {
      var before := inputs[..|inputs| - 1];
      var last := inputs[|inputs| - 1];
      RunHolds(launch, before);
      RunRoom(Run(launch, before));
      LimitersHold(launch, before, last.now);
      StepPays(Run(launch, before).room, last.event, last.now, last.now, 0);
      LimitersLater(Run(launch, inputs).room, last.now, t);
    }
  }

  lemma NoLimitersYet(launch: Launch, t: Time)
    ensures LimitersOk(Launched(launch).room, t)
  {
  }

  lemma LimitersLater(r: Room, s: Time, t: Time)
    requires LimitersOk(r, s) && s <= t
    ensures LimitersOk(r, t)
  {
  }

  // ---- what passing is for --------------------------------------------------------------------------

  // The tracker records a sequence only for chat that got this far.
  predicate MarksSame(r: Room, r': Room) { r'.epoch != r.epoch || r'.replay == r.replay }

  lemma RemoveMarks(r: Room, id: MemberId, kicked: bool)
    ensures var gone := RemoveMember(r, id, kicked); gone.Some? ==> MarksSame(r, gone.value.0)
  {
    hide SendAll, WrapAll;
  }

  lemma TimeoutMarks(r: Room)
    requires RoomInv(r)
    ensures MarksSame(r, OnEpochTimeout(r).0)
  {
    hide TableInv, LinkInv, QueueInv, LimitsInv, EvictAll, WrapAll;
    if r.pending.Some? && HOST_ID !in r.pending.value.awaiting {
      var r0 := r.(pending := None);
      EvictKeeps(r0, r.pending.value.awaiting);
      var (r1, _, removed) := EvictAll(r0, r.pending.value.awaiting);
      QueueAllGoneFrame(BeginEpochTransition(r1).0, removed, false);
    }
  }

  lemma LostMarks(r: Room, c: ConnectionId)
    ensures MarksSame(r, OnConnectionLost(r, c).0)
  {
    hide RemoveMember, RequestOf, MemberOf, TakeAt;
    var r0 := r.(timeouts := TimeoutsNotOf(r.timeouts, c));
    if MemberOf(r0.entries, c).Some? { RemoveMarks(r0, MemberOf(r0.entries, c).value, false); }
    else if PositionOfConnection(r0.table.members, c).Some? {
      RemoveMarks(r0, r0.table.members[PositionOfConnection(r0.table.members, c).value].id, false);
    }
  }

  lemma CommandMarks(r: Room, event: Event)
    requires event.OnHostCommand? || event.OnMemberCommand? || event.MemberDeparted? || event.HostAccepted? ||
      event.HostRejected?
    ensures MarksSame(r, HandleSettled(r, event).0)
  {
    hide OnHostCommandAt, OnAccept, OnReject, RemoveMember, MarksSame, Recolored;
    match event
    case OnHostCommand(command) => HostCommandMarks(r, command);
    case OnMemberCommand(c, command) => MemberCommandMarks(r, c, command);
    case MemberDeparted(id) => SelfMarks(r); RemoveMarks(r, id, false);
    case HostAccepted(id) => AcceptMarks(r, id);
    case HostRejected(id) => RejectMarks(r, id);
  }

  lemma SelfMarks(r: Room)
    ensures MarksSame(r, r)
  {
  }

  lemma AcceptMarks(r: Room, id: RequestId)
    ensures MarksSame(r, OnAccept(r, id).0)
  {
    hide SendAll, WrapAll, AddMember, Retained;
  }

  lemma RejectMarks(r: Room, id: RequestId)
    ensures MarksSame(r, OnReject(r, id).0)
  {
  }

  lemma HostCommandMarks(r: Room, command: HostCommand)
    ensures MarksSame(r, OnHostCommandAt(r, command).0)
  {
    hide RemoveMember, SendAll, Resolve, CloseAdmissions, OnAccept, OnReject;
    ClosingMarks(r);
    ClosingMarks(r.(sequence := r.sequence + 1));
    match command
    case Kick(target) =>
      var found := Resolve(r, target);
      if found.Ok? && found.value < |r.table.members| { RemoveMarks(r, r.table.members[found.value].id, true); }
    case Accept(id) => AcceptMarks(r, id);
    case Reject(id) => RejectMarks(r, id);
    case _ =>
  }

  lemma MemberCommandMarks(r: Room, c: ConnectionId, command: MemberCommand)
    ensures MarksSame(r, OnMemberCommandAt(r, c, command).0)
  {
    hide RemoveMember;
    if MemberOf(r.entries, c).Some? { RemoveMarks(r, MemberOf(r.entries, c).value, false); }
  }

  lemma ClosingMarks(r: Room)
    ensures CloseAdmissions(r).0 == r.(queue := CloseAdmissions(r).0.queue, entries := CloseAdmissions(r).0.entries)
  {
  }

  lemma ChatMarks(r: Room, c: ConnectionId, kind: nat, e: Envelope)
    requires RateLimited(kind) ==> !Passes(r, ChatReceived(c, kind, e), r.now, e.sender)
    requires r.phase != Destroyed && (r.phase == EpochTransition ==> HasAckedPending(r, c))
    ensures RateLimited(kind) ==> MarksSame(r, OnChatReceived(r, c, kind, e).0)
  {
    hide RemoveMember, OpenAndRelay, Allow;
    if RateLimited(kind) {
      RemoveMarks(r.(limits := r.limits[e.sender := Allow(BucketOf(r, e.sender), r.now).0]), e.sender, true);
    }
  }

  // Within an epoch, only chat moves the tracker, and limited chat only if it passes.
  lemma OnlyPassingMarks(r: Room, event: Event)
    requires RoomInv(r) && r.phase != Destroyed
    requires event.ChatReceived? ==> RateLimited(event.kind) && !Passes(r, event, r.now, event.envelope.sender)
    ensures MarksSame(r, if r.phase == EpochTransition then
      HandleInTransition(r, event).0 else HandleSettled(r, event).0)
  {
    hide RoomInv, OnConnectionLost, OnEpochTimeout, OnChatReceived, OnHostCommandAt, OnMemberCommandAt,
      OnMemberDeparted, OnAccept, OnReject, Passes;
    LostOrCommandMarks(r, event);
    match event
    case TimeoutExpired(c, _) => TimeoutMarks(r);
    case EpochMaintenance => TimeoutMarks(r);
    case ChatReceived(c, kind, e) =>
      if r.phase == EpochTransition ==> HasAckedPending(r, c) { ChatMarks(r, c, kind, e); }
    case OnHostCommand(_) => if r.phase == EpochTransition { RequestsMarks(r); }
    case _ =>
  }

  lemma RequestsMarks(r: Room)
    ensures OnHostCommandAt(r, Requests).0 == r
  {
  }

  lemma LostOrCommandMarks(r: Room, event: Event)
    ensures event.ConnectionLost? || event.TimeoutExpired? ==> MarksSame(r, OnConnectionLost(r, event.connection).0)
    ensures
      event.OnHostCommand? || event.OnMemberCommand? || event.MemberDeparted? || event.HostAccepted? ||
      event.HostRejected? ==>
      MarksSame(r, HandleSettled(r, event).0)
  {
    hide HandleSettled, OnConnectionLost;
    if event.ConnectionLost? || event.TimeoutExpired? { LostMarks(r, event.connection); }
    if event.OnHostCommand? || event.OnMemberCommand? || event.MemberDeparted? || event.HostAccepted? ||
      event.HostRejected? {
      CommandMarks(r, event);
    }
  }

  // Every limited envelope the room passes on was paid for by its author.
  lemma {:induction false} LimitedRelaysPass(launch: Launch, inputs: seq<Input>, input: Input, to: ConnectionId,
    kind: nat, e: Envelope)
    requires LaunchOk(launch) && AllAdmissible(inputs) && Admissible(input.event) && RateLimited(kind)
    requires SendTo(to, Relayed(kind, e)) in Sent(Handle(Run(launch, inputs).room, input.event, input.now).1)
    ensures Passes(Run(launch, inputs).room, input.event, input.now, e.sender)
    ensures input.event == ChatReceived(input.event.connection, kind, e)
  {
    hide RosterInv, EpochInv, MarksInv, AgreementInv, HostMisses, HostAwaits, AllDeferredOk, ChannelsOrdered, MemberInv,
      IssuedInv, Run, SameRoom, Handle, MoveOk, Passes, Step;
    RunHolds(launch, inputs);
    var s := Run(launch, inputs);
    var move := HandleMoves(s.room, input.event, input.now);
    var (r', reply) := Handle(s.room, input.event, input.now);
    var actions := Sent(reply);
    var i :| 0 <= i < |actions| && actions[i] == SendTo(to, Relayed(kind, e));
    RoomKeyed(s.room);
    OnlyRelaysRelay(s.room, r', actions, s.issued, move, i);
    UnfoldRelay(s.room, r', actions, move);
    RelayMarks(s.room, r', move, actions);
    UnpassedMarks(s.room, input.event, input.now);
  }

  lemma RelayMarks(r: Room, r': Room, move: Move, actions: seq<Action>)
    requires r.nextKey >= 1 && MoveOk(r, r', actions, move) && move.RelayChat?
    ensures !MarksSame(r, r')
  {
    hide SendAll, Roster;
    var k := (move.envelope.sender, r.epoch);
    assert k in r'.replay && (k in r.replay ==> r.replay[k] < r'.replay[k]);
  }

  lemma UnpassedMarks(r: Room, event: Event, now: Time)
    requires RoomInv(r)
    ensures var r' := Handle(r, event, now).0;
      MarksSame(r, r') || (event.ChatReceived? &&
        (RateLimited(event.kind) ==> Passes(r, event, now, event.envelope.sender)))
  {
    hide RoomInv, HandleInTransition, HandleSettled, Passes;
    var at := r.(now := now);
    RoomAt(r, now);
    ClocklessPass(r, event, now);
    if r.phase != Destroyed &&
      (event.ChatReceived? ==> RateLimited(event.kind) && !Passes(at, event, now, event.envelope.sender)) {
      OnlyPassingMarks(at, event);
    }
  }

  lemma ClocklessPass(r: Room, event: Event, now: Time)
    ensures event.ChatReceived? ==>
      Passes(r.(now := now), event, now, event.envelope.sender) == Passes(r, event, now, event.envelope.sender)
  {
    hide Allow;
  }

  // A limited action that does not pass asks the host for nothing.
  lemma RefusedAsksNothing(r: Room, c: ConnectionId, kind: nat, e: Envelope)
    requires RateLimited(kind) &&
      !(MemberOf(r.entries, c) == Some(e.sender) && PositionOfId(r.table.members, e.sender).Some? &&
      Allow(BucketOf(r, e.sender), r.now).1)
    ensures Shrinks(r, OnChatReceived(r, c, kind, e).0)
  {
    hide Shrinks, Allow, RemoveMember;
    SelfShrinks(r);
    var bucket := Allow(BucketOf(r, e.sender), r.now).0;
    var r1 := r.(limits := r.limits[e.sender := bucket]);
    ShrinksFrame(r, r, r1);
    RemoveShrinks(r1, e.sender, true);
    var gone := RemoveMember(r1, e.sender, true);
    if gone.Some? { ShrinksChain(r, r1, gone.value.0); }
  }

  lemma OnlyPassingAsks(r: Room, event: Event)
    requires event.ChatReceived? && RateLimited(event.kind) && !Passes(r, event, r.now, event.envelope.sender)
    ensures Shrinks(r, Handle(r, event, r.now).0)
  {
    hide Shrinks, OnChatReceived, Allow;
    SelfShrinks(r);
    assert r.(now := r.now) == r;
    if r.phase != Destroyed && (r.phase == EpochTransition ==> HasAckedPending(r, event.connection)) {
      RefusedAsksNothing(r, event.connection, event.kind, event.envelope);
    }
  }

  // Every request for a timeout that waits for the host was sent and paid for by its author.
  lemma {:induction false} LimitedTimeoutsPass(launch: Launch, inputs: seq<Input>, input: Input, t: TimeoutRequest)
    requires LaunchOk(launch) && AllAdmissible(inputs) && Admissible(input.event)
    requires t in Step(Run(launch, inputs), input).room.timeouts && t !in Run(launch, inputs).room.timeouts
    ensures AsksFor(input.event, t)
    ensures Passes(Run(launch, inputs).room, input.event, input.now, t.member)
  {
    hide RunInv, RoomInv, Run, Handle, Step, Passes, VerifiedFrom, QueuedFrom, MembersFrom, IdsFrom;
    RunHolds(launch, inputs);
    var r := Run(launch, inputs).room;
    RunRoom(Run(launch, inputs));
    StepRoom(Run(launch, inputs), input);
    HandleFramed(r, input.event, input.now);
    var at := r.(now := input.now);
    ClocklessPass(r, input.event, input.now);
    if !Passes(at, input.event, input.now, t.member) {
      OnlyPassingAsks(at, input.event);
      SameHandle(r, input.event, input.now);
    }
  }

  lemma SameHandle(r: Room, event: Event, now: Time)
    ensures Handle(r.(now := now), event, now) == Handle(r, event, now)
  {
  }
}
