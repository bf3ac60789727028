// The other half of the flood limit: nobody is refused who has not used up the allowance.
module Allowance {
  import opened RoomTypes
  import opened RateLimit
  import opened Members
  import opened Actor
  import opened ActorInvariants
  import opened Runs
  import opened KeySeparation
  import opened Transitions
  import opened Flooding
  import opened Departures
  import opened Speech

  // ---- one bucket ---------------------------------------------------------------------------------

  // A bucket caught between two calls: the tokens that flow in, up to the brim.
  lemma RefillExactly(b: Bucket, t: Time)
    requires BucketOk(b, t)
    ensures Refilled(b, t) ==
      b.(lastRefill := t, tokens := Min(b.tokens + Flow(b.refillPerSecond, t - b.lastRefill), b.capacity))
  {
    Spread(b.refillPerSecond, 0.0, t - b.lastRefill);
  }

  predicate Full(b: Bucket) {
    b.lastRefill == 0.0 && b.tokens == b.capacity && 0.0 <= b.capacity && 0.0 <= b.refillPerSecond
  }

  // The calls allowed from index `k` on.
  function AllowedFrom(b: Bucket, times: seq<Time>, k: nat): int
    requires k <= |times|
  {
    AllowedIn(b, times) - AllowedIn(b, times[..k])
  }

  // Since the last time the bucket was full it has lost no token but those it gave.
  lemma Untapped(b: Bucket, times: seq<Time>) returns (k: nat)
    requires times != [] && Nondecreasing(times) && Full(b)
    ensures k < |times|
    ensures var b' := AfterCalls(b, times);
      var last := times[|times| - 1];
      && BucketOk(b', last) && b'.lastRefill == last
      && b'.capacity == b.capacity && b'.refillPerSecond == b.refillPerSecond
      && b'.tokens >= b.capacity + Flow(b.refillPerSecond, last - times[k]) - AllowedFrom(b, times, k) as real
    decreases |times|
  {
    hide Flow, Refilled;
    var before := times[..|times| - 1];
    var last := times[|times| - 1];
    Spread(b.refillPerSecond, 0.0, last - last);
    if before == [] {
      k := 0;
      RefillExactly(b, last);
      Spread(b.refillPerSecond, 0.0, last - b.lastRefill);
      CallTakes(b, last);
      assert times[..0] == [];
    } else {
      k := Untapped(b, before);
      var b1 := AfterCalls(b, before);
      var t := before[|before| - 1];
      RefillExactly(b1, last);
      CallTakes(b1, last);
      Spread(b.refillPerSecond, t - times[k], last - t);
      assert (t - times[k]) + (last - t) == last - times[k];
      assert before[..k] == times[..k];
      if Refilled(b1, last).tokens == b.capacity { k := |before|; }
    }
  }

  lemma CallTakes(b: Bucket, t: Time)
    ensures var (b', allowed) := Allow(b, t);
      && b'.tokens == Refilled(b, t).tokens - (if allowed then 1.0 else 0.0)
      && b'.lastRefill == Refilled(b, t).lastRefill && b'.capacity == b.capacity &&
        b'.refillPerSecond == b.refillPerSecond
      && (allowed <==> Refilled(b, t).tokens >= 1.0)
  {
  }

  lemma {:induction false} AfterConcat(b: Bucket, xs: seq<Time>, ys: seq<Time>)
    ensures AfterCalls(b, xs + ys) == AfterCalls(AfterCalls(b, xs), ys)
    ensures AllowedIn(b, xs + ys) == AllowedIn(b, xs) + AllowedIn(AfterCalls(b, xs), ys)
    decreases |ys|
  {
    hide Allow;
    if ys == [] { assert xs + ys == xs; }
    else {
      var before := ys[..|ys| - 1];
      AfterConcat(b, xs, before);
      assert (xs + ys)[..|xs + ys| - 1] == xs + before;
    }
  }

  // The last call, if it were allowed, stays within the bound of the window that starts at `k`.
  predicate Fits(b: Bucket, times: seq<Time>, k: nat)
    requires k < |times| && Nondecreasing(times)
  {
    var n := |times| - 1;
    AllowedFrom(b, times[..n], k) as real + 1.0 <= b.capacity + Flow(b.refillPerSecond, times[n] - times[k])
  }

  // A full bucket refuses a call exactly if some window that ends with it has used up the capacity
  // and all that flowed in since.
  lemma {:induction false} BucketExactly(b: Bucket, times: seq<Time>)
    requires times != [] && Nondecreasing(times) && Full(b)
    ensures Allow(AfterCalls(b, times[..|times| - 1]), times[|times| - 1]).1 <==>
      forall k :: 0 <= k < |times| ==> Fits(b, times, k)
  {
    hide Flow, Refilled, AfterCalls, AllowedIn, Allow;
    var n := |times| - 1;
    var before := times[..n];
    var b1 := AfterCalls(b, before);
    if Allow(b1, times[n]).1 {
      forall k | 0 <= k < |times| ensures Fits(b, times, k) { AllowedFits(b, times, k); }
    } else { RefusedDoesNotFit(b, times); }
  }

  lemma AllowedFits(b: Bucket, times: seq<Time>, k: nat)
    requires times != [] && Nondecreasing(times) && Full(b) && k < |times|
    requires Allow(AfterCalls(b, times[..|times| - 1]), times[|times| - 1]).1
    ensures Fits(b, times, k)
  {
    hide Flow, Refilled, Allow, AfterCalls, AllowedIn, Credit;
    var n := |times| - 1;
    var head := times[..k];
    var tail := times[k..];
    var b1 := AfterCalls(b, head);
    assert times == head + tail && times[..n] == head + tail[..|tail| - 1];
    assert times[..n][..k] == head;
    HeadIsOk(b, times, k);
    CallsPay(b1, tail);
    AfterConcat(b, head, tail[..|tail| - 1]);
    LastCounts(b1, tail);
    NonNegative(AfterCalls(b1, tail), tail[|tail| - 1]);
  }

  lemma HeadIsOk(b: Bucket, times: seq<Time>, k: nat)
    requires Nondecreasing(times) && Full(b) && k < |times|
    ensures var b1 := AfterCalls(b, times[..k]);
      BucketOk(b1, times[k]) && b1.capacity == b.capacity && b1.refillPerSecond == b.refillPerSecond
  {
    hide Flow, AllowedIn, Allow;
    if k > 0 { var j := Untapped(b, times[..k]); }
  }

  lemma LastCounts(b: Bucket, times: seq<Time>)
    requires times != [] && Allow(AfterCalls(b, times[..|times| - 1]), times[|times| - 1]).1
    ensures AllowedIn(b, times) == AllowedIn(b, times[..|times| - 1]) + 1
  {
  }

  lemma NonNegative(b: Bucket, t: Time)
    requires BucketOk(b, t)
    ensures 0.0 <= Credit(b, t)
  {
    RefillExactly(b, t);
    Spread(b.refillPerSecond, 0.0, t - b.lastRefill);
  }

  lemma RefusedDoesNotFit(b: Bucket, times: seq<Time>)
    requires times != [] && Nondecreasing(times) && Full(b)
    requires !Allow(AfterCalls(b, times[..|times| - 1]), times[|times| - 1]).1
    ensures exists k :: 0 <= k < |times| && !Fits(b, times, k)
  {
    hide Flow, Refilled;
    var k := Untapped(b, times);
    var n := |times| - 1;
    var before := times[..n];
    if k < n { assert before[..k] == times[..k]; } else { assert before[..k] == before == times[..k]; }
    CallTakes(AfterCalls(b, before), times[n]);
    assert !Fits(b, times, k);
  }

  // ---- the limiters of a run ------------------------------------------------------------------------

  // What of member `id` passed in the inputs from index `k` on.
  function PassedFrom(launch: Launch, inputs: seq<Input>, k: nat, id: MemberId): int
    requires k <= |inputs|
  {
    PassedIn(Launched(launch).room, inputs, id) - PassedIn(Launched(launch).room, inputs[..k], id)
  }

  lemma {:induction false} RunIsAfter(launch: Launch, inputs: seq<Input>)
    ensures Run(launch, inputs).room == After(Launched(launch).room, inputs)
    decreases |inputs|
  {
    hide Step, Handle, Launched;
    if inputs != [] {
      RunIsAfter(launch, inputs[..|inputs| - 1]);
      StepRoom(Run(launch, inputs[..|inputs| - 1]), inputs[|inputs| - 1]);
    }
  }

  lemma {:induction false} PassedConcat(r: Room, xs: seq<Input>, ys: seq<Input>, id: MemberId)
    ensures After(r, xs + ys) == After(After(r, xs), ys)
    ensures PassedIn(r, xs + ys, id) == PassedIn(r, xs, id) + PassedIn(After(r, xs), ys, id)
    decreases |ys|
  {
    hide Handle, Passes;
    if ys == [] { assert xs + ys == xs; }
    else {
      var before := ys[..|ys| - 1];
      PassedConcat(r, xs, before, id);
      assert (xs + ys)[..|xs + ys| - 1] == xs + before;
    }
  }

  predicate Untouched(launch: Launch, inputs: seq<Input>, id: MemberId, b: Bucket, k: nat) {
    && k < |inputs| && inputs[k].now <= b.lastRefill <= inputs[|inputs| - 1].now
    && 0.0 <= b.tokens <= b.capacity == 5.0 && b.refillPerSecond == 1.0
    && b.tokens >= 5.0 + (b.lastRefill - inputs[k].now) - PassedFrom(launch, inputs, k, id) as real
  }

  lemma RoomUntapped(launch: Launch, inputs: seq<Input>, id: MemberId) returns (k: nat)
    requires LaunchOk(launch) && AllAdmissible(inputs) && Monotone(inputs) && id in Run(launch, inputs).room.limits
    ensures Untouched(launch, inputs, id, Run(launch, inputs).room.limits[id], k)
    decreases |inputs|
  {
    hide Run, RunInv, RoomInv, Handle, Untouched, Charges, Passes, Allow, LimitsKept, PassedFrom;
    k := 0;
    if inputs == [] { NobodyLimited(launch); }
    else {
      var before := inputs[..|inputs| - 1];
      var last := inputs[|inputs| - 1];
      RunHolds(launch, before);
      var r := Run(launch, before).room;
      RunRoom(Run(launch, before));
      RunSteps(launch, inputs);
      ChargedBucket(r, last.event, last.now);
      LimiterAfter(r, last, Run(launch, inputs).room, id);
      if !Charges(r, last.event, id) {
        k := RoomUntapped(launch, before, id);
        NoCall(launch, inputs, id, r.limits[id], k);
      } else if id in r.limits {
        k := RoomUntapped(launch, before, id);
        if Refilled(r.limits[id], last.now).tokens == 5.0 { k := FullCall(launch, inputs, id, r.limits[id], k); }
        else { NextCall(launch, inputs, id, r.limits[id], k); }
      } else {
        k := FirstCall(launch, inputs, id);
      }
    }
  }

  lemma NobodyLimited(launch: Launch)
    ensures Run(launch, []).room.limits == map[]
  {
  }

  lemma RunSteps(launch: Launch, inputs: seq<Input>)
    requires inputs != []
    ensures var last := inputs[|inputs| - 1];
      Run(launch, inputs).room == Handle(Run(launch, inputs[..|inputs| - 1]).room, last.event, last.now).0
  {
    hide Step, Handle, Launched;
    StepRoom(Run(launch, inputs[..|inputs| - 1]), inputs[|inputs| - 1]);
  }

  lemma LimiterAfter(r: Room, input: Input, r': Room, id: MemberId)
    requires LimitsKept(Charged(r, input.event, input.now), r') && id in r'.limits
    ensures !Charges(r, input.event, id) ==> id in r.limits && r'.limits[id] == r.limits[id]
    ensures Charges(r, input.event, id) ==> r'.limits[id] == Allow(BucketOf(r, id), input.now).0
  {
    hide Allow;
    ChargesOne(r, input.event, id);
  }

  // One more input adds what it lets pass.
  lemma PassedStep(launch: Launch, inputs: seq<Input>, k: nat, id: MemberId)
    requires inputs != [] && k < |inputs|
    ensures var before := inputs[..|inputs| - 1];
      var last := inputs[|inputs| - 1];
      PassedFrom(launch, inputs, k, id) == PassedFrom(launch, before, k, id) +
        if Passes(Run(launch, before).room, last.event, last.now, id) then 1 else 0
    ensures PassedFrom(launch, inputs[..|inputs| - 1], |inputs| - 1, id) == 0
  {
    hide Passes, Run, Launched;
    var before := inputs[..|inputs| - 1];
    RunIsAfter(launch, before);
    assert before[..k] == inputs[..k] && before[..|before|] == before;
  }

  lemma NoCall(launch: Launch, inputs: seq<Input>, id: MemberId, b: Bucket, k: nat)
    requires inputs != [] && Monotone(inputs)
    requires Untouched(launch, inputs[..|inputs| - 1], id, b, k)
    requires !Charges(Run(launch, inputs[..|inputs| - 1]).room, inputs[|inputs| - 1].event, id)
    ensures Untouched(launch, inputs, id, b, k)
  {
    hide Charges, Run, PassedFrom, Allow;
    PassedStep(launch, inputs, k, id);
  }

  predicate Calls(launch: Launch, inputs: seq<Input>, id: MemberId, b: Bucket) {
    && inputs != [] && Monotone(inputs)
    && var r := Run(launch, inputs[..|inputs| - 1]).room;
      Charges(r, inputs[|inputs| - 1].event, id) && BucketOf(r, id) == b
  }

  lemma NextCall(launch: Launch, inputs: seq<Input>, id: MemberId, b: Bucket, k: nat)
    requires Calls(launch, inputs, id, b) && Untouched(launch, inputs[..|inputs| - 1], id, b, k)
    requires Refilled(b, inputs[|inputs| - 1].now).tokens != 5.0
    ensures Untouched(launch, inputs, id, Allow(b, inputs[|inputs| - 1].now).0, k)
  {
    hide Charges, Run, PassedFrom, Allow, Refilled, Flow;
    var now := inputs[|inputs| - 1].now;
    PassedStep(launch, inputs, k, id);
    RefillExactly(b, now);
    CallTakes(b, now);
    Spread(1.0, now - b.lastRefill, 0.0);
  }

  // A call on a full bucket starts a window of its own.
  lemma FullCall(launch: Launch, inputs: seq<Input>, id: MemberId, b: Bucket, was: nat) returns (k: nat)
    requires Calls(launch, inputs, id, b) && Untouched(launch, inputs[..|inputs| - 1], id, b, was)
    requires Refilled(b, inputs[|inputs| - 1].now).tokens == 5.0
    ensures Untouched(launch, inputs, id, Allow(b, inputs[|inputs| - 1].now).0, k)
  {
    hide Charges, Run, PassedFrom, Allow, Refilled, Flow;
    k := |inputs| - 1;
    PassedStep(launch, inputs, k, id);
    RefillExactly(b, inputs[k].now);
    CallTakes(b, inputs[k].now);
  }

  lemma FirstCall(launch: Launch, inputs: seq<Input>, id: MemberId) returns (k: nat)
    requires Calls(launch, inputs, id, NewBucket(MEMBER_BURST, MEMBER_RATE))
    ensures Untouched(launch, inputs, id, Allow(NewBucket(MEMBER_BURST, MEMBER_RATE), inputs[|inputs| - 1].now).0, k)
  {
    hide Charges, Run, PassedFrom, Allow, Refilled, Flow;
    k := |inputs| - 1;
    var b := NewBucket(MEMBER_BURST, MEMBER_RATE);
    PassedStep(launch, inputs, k, id);
    RefillExactly(b, inputs[k].now);
    CallTakes(b, inputs[k].now);
    Spread(1.0, 0.0, inputs[k].now - b.lastRefill);
  }

  // ---- when a member is refused --------------------------------------------------------------------

  // One more action at the end of the inputs stays within the bound of the window from index `k`.
  predicate ActionFits(launch: Launch, inputs: seq<Input>, k: nat, id: MemberId)
    requires k < |inputs|
  {
    var n := |inputs| - 1;
    PassedFrom(launch, inputs[..n], k, id) as real + 1.0 <= 5.0 + (inputs[n].now - inputs[k].now)
  }

  // In any run, a rate-limited action of a member passes exactly if in every window that ends with it
  // fewer than five actions, plus one for every second of the window, have passed.
  lemma {:induction false} FloodExactly(launch: Launch, inputs: seq<Input>, id: MemberId)
    requires LaunchOk(launch) && AllAdmissible(inputs) && Monotone(inputs) && inputs != []
    requires Charges(Run(launch, inputs[..|inputs| - 1]).room, inputs[|inputs| - 1].event, id)
    ensures Passes(Run(launch, inputs[..|inputs| - 1]).room, inputs[|inputs| - 1].event, inputs[|inputs| - 1].now,
      id) <==>
      forall k :: 0 <= k < |inputs| ==> ActionFits(launch, inputs, k, id)
  {
    hide Run, Passes, PassedFrom, Charges, RunInv, RoomInv, ActionFits;
    var n := |inputs| - 1;
    if Passes(Run(launch, inputs[..n]).room, inputs[n].event, inputs[n].now, id) {
      forall k | 0 <= k < |inputs| ensures ActionFits(launch, inputs, k, id) { PassingFits(launch, inputs, k, id); }
    } else { RefusedDidNotFit(launch, inputs, id); }
  }

  lemma PassingFits(launch: Launch, inputs: seq<Input>, k: nat, id: MemberId)
    requires LaunchOk(launch) && AllAdmissible(inputs) && Monotone(inputs) && k < |inputs|
    requires Passes(Run(launch, inputs[..|inputs| - 1]).room, inputs[|inputs| - 1].event, inputs[|inputs| - 1].now, id)
    ensures ActionFits(launch, inputs, k, id)
  {
    hide Run, Passes, Charges;
    var n := |inputs| - 1;
    var head := inputs[..k];
    assert inputs == head + inputs[k..];
    FloodBound(launch, head, inputs[k..], id);
    RunIsAfter(launch, head);
    PassedConcat(Launched(launch).room, head, inputs[k..], id);
    PassedStep(launch, inputs, k, id);
  }

  lemma RefusedDidNotFit(launch: Launch, inputs: seq<Input>, id: MemberId)
    requires LaunchOk(launch) && AllAdmissible(inputs) && Monotone(inputs) && inputs != []
    requires Charges(Run(launch, inputs[..|inputs| - 1]).room, inputs[|inputs| - 1].event, id)
    requires !Passes(Run(launch, inputs[..|inputs| - 1]).room, inputs[|inputs| - 1].event, inputs[|inputs| - 1].now, id)
    ensures exists k :: 0 <= k < |inputs| && !ActionFits(launch, inputs, k, id)
  {
    hide Run, Charges, Allow, PassedFrom, Refilled, Flow;
    var n := |inputs| - 1;
    var r := Run(launch, inputs[..n]).room;
    assert forall i :: 0 <= i < n ==> inputs[..n][i] == inputs[i];
    var b := BucketOf(r, id);
    var now := inputs[n].now;
    if id in r.limits {
      var k := RoomUntapped(launch, inputs[..n], id);
      RefillExactly(b, now);
      CallTakes(b, now);
      Spread(1.0, now - b.lastRefill, 0.0);
      if Refilled(b, now).tokens < 1.0 { assert !ActionFits(launch, inputs, k, id); }
    } else {
      RefillExactly(b, now);
      CallTakes(b, now);
      Spread(1.0, 0.0, now - b.lastRefill);
    }
  }

  // Whoever had fewer than five actions pass since a moment at least five seconds ago is heard: any
  // five actions after five quiet seconds pass.
  lemma {:induction false} QuietIsHeard(launch: Launch, inputs: seq<Input>, start: nat, id: MemberId)
    requires LaunchOk(launch) && AllAdmissible(inputs) && Monotone(inputs) && start < |inputs|
    requires Charges(Run(launch, inputs[..|inputs| - 1]).room, inputs[|inputs| - 1].event, id)
    requires start > 0 ==> inputs[start - 1].now + 5.0 <= inputs[|inputs| - 1].now
    requires PassedFrom(launch, inputs[..|inputs| - 1], start, id) < 5
    ensures Passes(Run(launch, inputs[..|inputs| - 1]).room, inputs[|inputs| - 1].event, inputs[|inputs| - 1].now, id)
  {
    hide Run, Passes, Charges, ActionFits, PassedFrom, Monotone, AllAdmissible;
    FloodExactly(launch, inputs, id);
    forall k | 0 <= k < |inputs| ensures ActionFits(launch, inputs, k, id) {
      if k < start { EarlierFits(launch, inputs, k, start, id); } else { LaterFits(launch, inputs, k, start, id); }
    }
  }

  lemma LaterFits(launch: Launch, inputs: seq<Input>, k: nat, start: nat, id: MemberId)
    requires Monotone(inputs) && start <= k < |inputs| && PassedFrom(launch, inputs[..|inputs| - 1], start, id) < 5
    ensures ActionFits(launch, inputs, k, id)
  {
    hide PassedFrom;
    PassedMonotone(launch, inputs[..|inputs| - 1], start, k, id);
  }

  lemma PassedMonotone(launch: Launch, inputs: seq<Input>, j: nat, k: nat, id: MemberId)
    requires j <= k <= |inputs|
    ensures PassedFrom(launch, inputs, k, id) <= PassedFrom(launch, inputs, j, id)
  {
    hide Passes, PassedIn;
    assert inputs[..k] == inputs[..j] + inputs[j..k];
    PassedConcat(Launched(launch).room, inputs[..j], inputs[j..k], id);
  }

  lemma EarlierFits(launch: Launch, inputs: seq<Input>, k: nat, start: nat, id: MemberId)
    requires LaunchOk(launch) && AllAdmissible(inputs) && Monotone(inputs) && k < start < |inputs|
    requires inputs[start - 1].now + 5.0 <= inputs[|inputs| - 1].now
    requires PassedFrom(launch, inputs[..|inputs| - 1], start, id) < 5
    ensures ActionFits(launch, inputs, k, id)
  {
    hide PassedFrom, AllAdmissible, Monotone;
    EarlierPassed(launch, inputs, k, start, id);
    assert inputs[..start][|inputs[..start]| - 1] == inputs[start - 1];
    PassedSplit(launch, inputs[..|inputs| - 1], k, start, id);
    assert inputs[..|inputs| - 1][..start] == inputs[..start];
    assert inputs[k].now <= inputs[start - 1].now by { InOrderOf(inputs, k, start - 1); }
  }

  lemma InOrderOf(inputs: seq<Input>, i: nat, j: nat)
    requires Monotone(inputs) && i <= j < |inputs|
    ensures inputs[i].now <= inputs[j].now
  {
  }

  lemma PassedSplit(launch: Launch, inputs: seq<Input>, k: nat, start: nat, id: MemberId)
    requires k <= start <= |inputs|
    ensures PassedFrom(launch, inputs, k, id) == PassedFrom(launch, inputs[..start], k, id) +
      PassedFrom(launch, inputs, start, id)
  {
    hide PassedIn;
    assert inputs[..start][..k] == inputs[..k];
  }

  // What passed in the window that ends before `start`.
  lemma EarlierPassed(launch: Launch, inputs: seq<Input>, k: nat, start: nat, id: MemberId)
    requires LaunchOk(launch) && AllAdmissible(inputs) && Monotone(inputs) && k < start <= |inputs|
    ensures PassedFrom(launch, inputs[..start], k, id) as real <= 5.0 + (inputs[start - 1].now - inputs[k].now)
  {
    hide Run, Passes, PassedIn;
    var window := inputs[k..start];
    assert inputs[..start] == inputs[..k] + window && inputs[..start][..k] == inputs[..k];
    assert forall i :: 0 <= i < start ==> inputs[..start][i] == inputs[i];
    FloodBound(launch, inputs[..k], window, id);
    RunIsAfter(launch, inputs[..k]);
    PassedConcat(Launched(launch).room, inputs[..k], window, id);
  }

  // ---- when a member is kicked ------------------------------------------------------------------------

  // How many rate-limited actions of member `id` were refused since the last one that passed.
  function Strikes(launch: Launch, inputs: seq<Input>, id: MemberId): nat
    decreases |inputs|
  {
    if inputs == [] then 0 else
      var before := inputs[..|inputs| - 1];
      var r := Run(launch, before).room;
      var last := inputs[|inputs| - 1];
      if Passes(r, last.event, last.now, id) then 0
      else Strikes(launch, before, id) + if Charges(r, last.event, id) then 1 else 0
  }

  lemma {:induction false} StrikesAreCounted(launch: Launch, inputs: seq<Input>, id: MemberId)
    requires LaunchOk(launch) && AllAdmissible(inputs)
    ensures var r := Run(launch, inputs).room;
      && (id in IdSet(r.table.members) ==> StrikesOf(r, id) == Strikes(launch, inputs, id))
      && (id >= r.table.nextId ==> Strikes(launch, inputs, id) == 0)
    decreases |inputs|
  {
    hide Run, RunInv, RoomInv, Handle, Allow, IdSet, LimitsKept, Charges, Passes;
    if inputs == [] { NobodyLimited(launch); }
    else {
      var before := inputs[..|inputs| - 1];
      var last := inputs[|inputs| - 1];
      RunHolds(launch, before);
      RunHolds(launch, inputs);
      var (r, r') := (Run(launch, before).room, Run(launch, inputs).room);
      RunRoom(Run(launch, before));
      RunRoom(Run(launch, inputs));
      RunSteps(launch, inputs);
      StrikesAreCounted(launch, before, id);
      ChargedBucket(r, last.event, last.now);
      NextIdGrows(r, last.event, last.now);
      ChargedIsMember(r, last.event, last.now, id);
      if id in IdSet(r'.table.members) {
        StrikesKept(r, last, r', id);
        if id !in IdSet(r.table.members) { NewcomerIsNew(r, last.event, last.now, id); }
      }
    }
  }

  lemma ChargedIsMember(r: Room, event: Event, now: Time, id: MemberId)
    requires RoomInv(r)
    ensures Charges(r, event, id) ==> id in IdSet(r.table.members) && id < r.table.nextId
    ensures Passes(r, event, now, id) ==> Charges(r, event, id)
  {
    hide LinkInv, QueueInv, LimitsInv, MarksInv, EpochInv, Allow;
  }

  lemma StrikesKept(r: Room, input: Input, r': Room, id: MemberId)
    requires RoomInv(r) && LimitsKept(Charged(r, input.event, input.now), r') && id in IdSet(r'.table.members)
    ensures StrikesOf(r', id) ==
      if Passes(r, input.event, input.now, id) then 0
      else (if id in r.limits then r.limits[id].violations else 0) + if Charges(r, input.event, id) then 1 else 0
  {
    hide RoomInv, Allow, IdSet, Charges;
    ChargesOne(r, input.event, id);
    CountsOn(BucketOf(r, id), input.now);
  }

  lemma NewcomerIsNew(r: Room, event: Event, now: Time, id: MemberId)
    requires RoomInv(r) && id !in IdSet(r.table.members) && id in IdSet(Handle(r, event, now).0.table.members)
    ensures id >= r.table.nextId && id !in r.limits
  {
    hide TableInv, LinkInv, QueueInv, MarksInv, EpochInv, Handle, IdSet;
    if id < r.table.nextId { GoneStays(r, event, now, id); }
  }

  // A guest that is refused is kicked exactly at its tenth refusal in a row.
  lemma {:induction false} KickedExactly(launch: Launch, inputs: seq<Input>, input: Input)
    requires LaunchOk(launch) && AllAdmissible(inputs + [input]) &&
      Flooded(Run(launch, inputs).room, input.event, input.now)
    requires input.event.envelope.sender != HOST_ID
    ensures input.event.envelope.sender in IdSet(Run(launch, inputs + [input]).room.table.members) <==>
      Strikes(launch, inputs + [input], input.event.envelope.sender) < 10
  {
    hide Run, RunInv, RoomInv, Handle, Allow, IdSet, Announced;
    var id := input.event.envelope.sender;
    var all := inputs + [input];
    assert all[..|all| - 1] == inputs;
    PrefixAdmissible(inputs, [input]);
    RunHolds(launch, inputs);
    var r := Run(launch, inputs).room;
    RunRoom(Run(launch, inputs));
    RunSteps(launch, all);
    StrikesAreCounted(launch, inputs, id);
    FloodedIsWarned(r, input.event, input.now);
    FloodedIsMember(r, input.event, input.now);
    var r' := Run(launch, all).room;
    if StrikesOf(r, id) + 1 >= 10 { RemovedIsOut(r, r', id); }
  }

  lemma FloodedIsMember(r: Room, event: Event, now: Time)
    requires RoomInv(r) && Flooded(r, event, now)
    ensures event.envelope.sender in IdSet(r.table.members) && !Passes(r, event, now, event.envelope.sender)
    ensures Charges(r, event, event.envelope.sender)
  {
    hide RoomInv, Allow;
    ChargedIsMember(r, event, now, event.envelope.sender);
  }

  lemma RemovedIsOut(r: Room, r': Room, id: MemberId)
    requires Removed(r, r', {id})
    ensures id !in IdSet(r'.table.members)
  {
    forall k | 0 <= k < |r'.table.members| ensures r'.table.members[k].id != id {
      assert r'.table.members[k] in r'.table.members;
    }
  }
}
