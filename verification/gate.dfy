// How one becomes a member, and what happens to the requests on the way: every step of the
// admission gate leaves its trace in the run, and every request is settled at most once.
module Gate {
  import opened Wrappers
  import opened RoomTypes
  import opened Members
  import opened Registry
  import opened Requests
  import opened Replay
  import opened RateLimit
  import opened Actor
  import opened ActorInvariants
  import opened ActorMoves
  import Session

  // ---- what one event may add ----------------------------------------------------------------

  predicate Verified(r: Room, c: ConnectionId) { c in r.entries && r.entries[c].passwordVerified }

  predicate Accepts(event: Event, id: RequestId) {
    event == HostAccepted(id) || event == OnHostCommand(Accept(id))
  }

  predicate HasRequestId(requests: seq<JoinRequest>, id: RequestId) {
    exists i :: 0 <= i < |requests| && requests[i].id == id
  }

  predicate HasTimeoutId(requests: seq<TimeoutRequest>, id: RequestId) {
    exists i :: 0 <= i < |requests| && requests[i].id == id
  }

  // The request waits for the host's decision.
  predicate OpenRequest(r: Room, id: RequestId) {
    HasRequestId(r.queue.requests, id) || HasTimeoutId(r.timeouts, id)
  }

  // The member that request `q` becomes, whatever its id and epoch.
  predicate AdmittedFrom(m: Member, q: JoinRequest) {
    && m.connection == q.connection && m.nickname == q.application.nickname
    && m.ed25519 == q.application.ed25519 && m.x25519 == q.application.x25519
  }

  ghost predicate VerifiedFrom(r: Room, r': Room, event: Event) {
    forall c :: Verified(r', c) ==> Verified(r, c) || (event == PasswordVerified(c) && c in r.entries)
  }

  ghost predicate QueuedFrom(r: Room, r': Room, event: Event) {
    forall q :: q in r'.queue.requests ==>
      q in r.queue.requests ||
      (event == JoinRequested(q.connection, q.application) && Verified(r, q.connection) && r.policyOpen)
  }

  predicate EnteredBy(r: Room, event: Event, m: Member) {
    exists i :: 0 <= i < |r.queue.requests| && Accepts(event, r.queue.requests[i].id) &&
      AdmittedFrom(m, r.queue.requests[i])
  }

  ghost predicate MembersFrom(r: Room, r': Room, event: Event) {
    forall m :: m in Roster(r'.table.members) ==>
      m in Roster(r.table.members) || (r.policyOpen && r.phase == Open && EnteredBy(r, event, m))
  }

  ghost predicate IdsFrom(r: Room, r': Room) {
    && r.queue.nextId <= r'.queue.nextId
    && forall id: RequestId :: OpenRequest(r', id) ==> OpenRequest(r, id) || r.queue.nextId <= id < r'.queue.nextId
  }

  predicate AsksFor(event: Event, t: TimeoutRequest) {
    && event.ChatReceived? && event.connection == t.connection
    && event.kind == MSG_TIMEOUT_REQUEST && event.envelope.sender == t.member
  }

  ghost predicate TimeoutsFrom(r: Room, r': Room, event: Event) {
    forall t :: t in r'.timeouts ==> t in r.timeouts || AsksFor(event, t)
  }

  ghost predicate GateFrame(r: Room, r': Room, event: Event) {
    && VerifiedFrom(r, r', event) && QueuedFrom(r, r', event) && MembersFrom(r, r', event) && IdsFrom(r, r')
    && TimeoutsFrom(r, r', event)
  }

  // Nothing is added at all.
  ghost predicate Shrinks(r: Room, r': Room) {
    && r'.queue.nextId == r.queue.nextId
    && (forall c :: Verified(r', c) ==> Verified(r, c))
    && (forall q :: q in r'.queue.requests ==> q in r.queue.requests)
    && (forall t :: t in r'.timeouts ==> t in r.timeouts)
    && (forall m :: m in Roster(r'.table.members) ==> m in Roster(r.table.members))
  }

  lemma ShrinksIsFramed(r: Room, r': Room, event: Event)
    requires Shrinks(r, r')
    ensures GateFrame(r, r', event)
  {
    hide Verified, EnteredBy, Roster;
    forall id: RequestId | OpenRequest(r', id) ensures OpenRequest(r, id) {
      if HasRequestId(r'.queue.requests, id) {
        var i :| 0 <= i < |r'.queue.requests| && r'.queue.requests[i].id == id;
        assert r'.queue.requests[i] in r.queue.requests;
      } else {
        var i :| 0 <= i < |r'.timeouts| && r'.timeouts[i].id == id;
        assert r'.timeouts[i] in r.timeouts;
      }
    }
  }

  // ---- handlers that only take away --------------------------------------------------------------

  lemma RosterWithout(members: seq<Member>, i: nat)
    requires i < |members|
    ensures forall m :: m in Roster(Without(members, i)) ==> m in Roster(members)
  {
    var rest := Without(members, i);
    forall k | 0 <= k < |rest| ensures Roster(rest)[k] in Roster(members) {
      assert rest[k] == members[if k < i then k else k + 1];
      assert Roster(members)[if k < i then k else k + 1] == Plain(rest[k]);
    }
  }

  lemma DropShrinks(r: Room, i: nat)
    requires i < |r.table.members|
    ensures Shrinks(r, DropMember(r, i))
  {
    hide Roster, Without;
    RosterWithout(r.table.members, i);
  }

  lemma ShrinksChain(a: Room, b: Room, c: Room)
    requires Shrinks(a, b) && Shrinks(b, c)
    ensures Shrinks(a, c)
  {
    hide Verified, Roster;
  }

  lemma RemoveShrinks(r: Room, id: MemberId, kicked: bool)
    ensures RemoveMember(r, id, kicked).Some? ==> Shrinks(r, RemoveMember(r, id, kicked).value.0)
  {
    hide Roster, SendAll, WrapAll;
    var p := PositionOfId(r.table.members, id);
    if p.Some? {
      DropShrinks(r, p.value);
    }
  }

  lemma {:induction false} EvictAllShrinks(r: Room, ids: seq<MemberId>)
    ensures Shrinks(r, EvictAll(r, ids).0)
    decreases |ids|
  {
    hide Shrinks, DropMember;
    if ids == [] { SelfShrinks(r); }
    else {
      EvictAllShrinks(r, ids[..|ids| - 1]);
      var r1 := EvictAll(r, ids[..|ids| - 1]).0;
      var p := PositionOfId(r1.table.members, ids[|ids| - 1]);
      if p.Some? {
        DropShrinks(r1, p.value);
        ShrinksChain(r, r1, DropMember(r1, p.value));
      }
    }
  }

  lemma SelfShrinks(r: Room)
    ensures Shrinks(r, r)
  {
  }

  // Only the fields named here are read by the gate.
  lemma ShrinksFrame(r: Room, a: Room, b: Room)
    requires Shrinks(r, a) && b.queue == a.queue && b.timeouts == a.timeouts && b.entries == a.entries &&
      b.table == a.table
    ensures Shrinks(r, b)
  {
  }

  lemma TimeoutShrinks(r: Room)
    ensures Shrinks(r, OnEpochTimeout(r).0)
  {
    hide Shrinks, EvictAll, QueueAllGone, SendAll, WrapAll;
    SelfShrinks(r);
    ShrinksFrame(r, r, r.(pending := None));
    ShrinksFrame(r, r, r.(pending := None, phase := Destroyed));
    if r.pending.Some? {
      var r0 := r.(pending := None);
      EvictAllShrinks(r0, r.pending.value.awaiting);
      var (r1, _, removed) := EvictAll(r0, r.pending.value.awaiting);
      ShrinksChain(r, r0, r1);
      var b := BeginEpochTransition(r1).0;
      QueueAllGoneFrame(b, removed, false);
      ShrinksFrame(r, r1, QueueAllGone(b, removed, false));
    }
  }

  lemma AckShrinks(r: Room, c: ConnectionId, epoch: nat)
    ensures Shrinks(r, OnEpochAck(r, c, epoch).0)
  {
    hide Roster;
  }

  lemma TakenAway(r: Room, i: nat, c: ConnectionId)
    requires i < |r.queue.requests|
    ensures Shrinks(r, r.(queue := TakeAt(r.queue, i), entries := r.entries - {c}))
  {
    hide Roster;
  }

  lemma TimeoutTaken(r: Room, i: nat)
    requires i < |r.timeouts|
    ensures Shrinks(r, WithoutTimeout(r, i))
  {
    hide Roster;
  }

  lemma LostShrinks(r: Room, c: ConnectionId)
    ensures Shrinks(r, OnConnectionLost(r, c).0)
  {
    hide Shrinks, RemoveMember, RequestOf, MemberOf, Roster, TakeAt;
    var r0 := r.(timeouts := TimeoutsNotOf(r.timeouts, c));
    SelfShrinks(r);
    ShrinksFrame(r, r, r.(phase := Destroyed));
    TimeoutsShrink(r, c);
    ForgetShrinks(r, r0, c);
    var member := match MemberOf(r0.entries, c)
      case Some(id) => Some(id)
      case None => match PositionOfConnection(r0.table.members, c) case None => None
        case Some(i) => Some(r0.table.members[i].id);
    if member.Some? {
      RemoveShrinks(r0, member.value, false);
      var gone := RemoveMember(r0, member.value, false);
      if gone.Some? {
        ShrinksChain(r, r0, gone.value.0);
        ForgetShrinks(r, gone.value.0, c);
      }
    } else if RequestOf(r0.entries, c).Some? {
      var p := PositionOfRequest(r0.queue.requests, RequestOf(r0.entries, c).value);
      if p.Some? {
        TakenAway(r0, p.value, c);
        ShrinksChain(r, r0, r0.(queue := TakeAt(r0.queue, p.value), entries := r0.entries - {c}));
      }
    }
  }

  lemma TimeoutsShrink(r: Room, c: ConnectionId)
    ensures Shrinks(r, r.(timeouts := TimeoutsNotOf(r.timeouts, c)))
  {
    hide Roster;
    TimeoutsNotOfIsFilter(r.timeouts, c);
  }

  lemma ForgetShrinks(r: Room, a: Room, c: ConnectionId)
    requires Shrinks(r, a)
    ensures Shrinks(r, a.(entries := a.entries - {c}))
  {
    hide Roster;
  }

  lemma CloseAdmissionsShrinks(r: Room)
    ensures Shrinks(r, CloseAdmissions(r).0)
  {
    hide Roster, ConnectionsOf, NonMembers;
  }

  lemma NewIdShrinks(r: Room)
    ensures Shrinks(r, OnNewId(r).0)
  {
    hide Shrinks, CloseAdmissions;
    SelfShrinks(r);
    ShrinksFrame(r, r, r.(sequence := r.sequence + 1));
    CloseAdmissionsShrinks(r.(sequence := r.sequence + 1));
    ShrinksChain(r, r.(sequence := r.sequence + 1), CloseAdmissions(r.(sequence := r.sequence + 1)).0);
  }

  lemma PolicyShrinks(r: Room, open: bool)
    ensures Shrinks(r, SetPolicy(r, open).0)
  {
    hide Shrinks, CloseAdmissions, SendAll;
    SelfShrinks(r);
    CloseAdmissionsShrinks(r);
    ShrinksFrame(r, if open then r else CloseAdmissions(r).0, SetPolicy(r, open).0);
  }

  lemma RecoloredShrinks(r: Room, id: MemberId, color: Color)
    ensures Shrinks(r, Recolored(r, id, color))
  {
    hide Roster, Recolored;
    RecoloredFrame(r, id, color);
  }

  lemma MembersCommandShrinks(r: Room, c: ConnectionId, command: MemberCommand)
    ensures Shrinks(r, OnMemberCommandAt(r, c, command).0)
  {
    hide Shrinks, RemoveMember, Recolored;
    SelfShrinks(r);
    if MemberOf(r.entries, c).Some? {
      RemoveShrinks(r, MemberOf(r.entries, c).value, false);
      if command.SetColor? { RecoloredShrinks(r, MemberOf(r.entries, c).value, command.color); }
    }
    if command.SetColor? { RecoloredShrinks(r, HOST_ID, command.color); }
  }

  lemma KickShrinks(r: Room, target: MemberRef)
    ensures Shrinks(r, OnKick(r, target).0)
  {
    hide Shrinks, RemoveMember;
    SelfShrinks(r);
    var found := Resolve(r, target);
    if found.Ok? && found.value < |r.table.members| { RemoveShrinks(r, r.table.members[found.value].id, true); }
  }

  lemma RejectShrinks(r: Room, id: RequestId)
    ensures Shrinks(r, OnReject(r, id).0)
  {
    hide Shrinks, TakeAt, WithoutTimeout;
    SelfShrinks(r);
    var t := PositionOfTimeout(r.timeouts, id);
    var p := PositionOfRequest(r.queue.requests, id);
    if t.Some? { TimeoutTaken(r, t.value); }
    else if p.Some? { TakenAway(r, p.value, r.queue.requests[p.value].connection); }
  }

  lemma DepartedShrinks(r: Room, id: MemberId)
    ensures Shrinks(r, OnMemberDeparted(r, id).0)
  {
    hide Shrinks, RemoveMember;
    SelfShrinks(r);
    RemoveShrinks(r, id, false);
  }

  // ---- handlers that add ----------------------------------------------------------------------------

  lemma TimeoutAsked(r: Room, c: ConnectionId, e: Envelope, p: Plaintext, event: Event)
    requires event == ChatReceived(c, MSG_TIMEOUT_REQUEST, e)
    ensures GateFrame(r, AskForTimeout(r, c, e, p).0, event)
  {
    hide Roster, EnteredBy;
    SelfShrinks(r);
    ShrinksIsFramed(r, r, event);
    var r' := AskForTimeout(r, c, e, p).0;
    forall id: RequestId | OpenRequest(r', id) ensures OpenRequest(r, id) || r.queue.nextId <= id < r'.queue.nextId {
      if !HasRequestId(r'.queue.requests, id) {
        var i :| 0 <= i < |r'.timeouts| && r'.timeouts[i].id == id;
        if i < |r.timeouts| { assert r.timeouts[i].id == id; }
      }
    }
  }

  lemma RelayPlaintextFramed(r: Room, c: ConnectionId, kind: nat, e: Envelope, p: Plaintext, event: Event)
    requires event == ChatReceived(c, kind, e)
    ensures GateFrame(r, RelayPlaintext(r, c, kind, e, p).0, event)
  {
    hide Shrinks, GateFrame, AskForTimeout, Recolored, SendAll;
    SelfShrinks(r);
    ShrinksIsFramed(r, r, event);
    if kind == MSG_TIMEOUT_REQUEST { TimeoutAsked(r, c, e, p, event); }
    if kind == MSG_COLOR && |p.data| == 1 && ColorFromIndex(p.data[0]).Some? {
      RecoloredShrinks(r, e.sender, ColorFromIndex(p.data[0]).value);
      ShrinksIsFramed(r, Recolored(r, e.sender, ColorFromIndex(p.data[0]).value), event);
    }
    if Session.TimeoutPayload(p).Ok? {
      ShrinksFrame(r, r, r.(roomTimeout := Session.TimeoutPayload(p).value));
      ShrinksIsFramed(r, r.(roomTimeout := Session.TimeoutPayload(p).value), event);
    }
  }

  // The gate does not look at the fields that chat changes.
  lemma GateFrameFrom(r0: Room, r: Room, r': Room, event: Event)
    requires GateFrame(r0, r', event)
    requires r.queue == r0.queue && r.timeouts == r0.timeouts && r.entries == r0.entries && r.table == r0.table
    requires r.policyOpen == r0.policyOpen && r.phase == r0.phase
    ensures GateFrame(r, r', event)
  {
    hide Roster;
  }

  lemma OverLimitFramed(r: Room, c: ConnectionId, id: MemberId, abusive: bool, event: Event)
    ensures GateFrame(r, OverLimit(r, c, id, abusive).0, event)
  {
    hide Shrinks, GateFrame, RemoveMember;
    SelfShrinks(r);
    ShrinksIsFramed(r, r, event);
    RemoveShrinks(r, id, true);
    var gone := RemoveMember(r, id, true);
    if gone.Some? { ShrinksIsFramed(r, gone.value.0, event); }
  }

  lemma ChatFramed(r: Room, c: ConnectionId, kind: nat, e: Envelope, event: Event)
    requires event == ChatReceived(c, kind, e)
    ensures GateFrame(r, OnChatReceived(r, c, kind, e).0, event)
  {
    hide Shrinks, GateFrame, OpenAndRelay, OverLimit, Allow;
    SelfShrinks(r);
    ShrinksIsFramed(r, r, event);
    var bucket := Allow(BucketOf(r, e.sender), r.now).0;
    var r1 := r.(limits := r.limits[e.sender := bucket]);
    RelayFramed(r, c, kind, e, event);
    RelayFramed(r1, c, kind, e, event);
    GateFrameFrom(r1, r, OpenAndRelay(r1, c, kind, e).0, event);
    OverLimitFramed(r1, c, e.sender, bucket.violations >= RATE_LIMIT_TERMINATION, event);
    GateFrameFrom(r1, r, OverLimit(r1, c, e.sender, bucket.violations >= RATE_LIMIT_TERMINATION).0, event);
  }

  lemma RelayFramed(r: Room, c: ConnectionId, kind: nat, e: Envelope, event: Event)
    requires event == ChatReceived(c, kind, e)
    ensures GateFrame(r, OpenAndRelay(r, c, kind, e).0, event)
  {
    hide Shrinks, GateFrame, RelayPlaintext, ChatPlaintext;
    SelfShrinks(r);
    ShrinksIsFramed(r, r, event);
    var plain := ChatPlaintext(r, kind, e);
    if plain.Ok? {
      var r1 := r.(replay := Accepted(r.replay, e.sender, r.epoch, e.sequence));
      RelayPlaintextFramed(r1, c, kind, e, plain.value, event);
      GateFrameFrom(r1, r, RelayPlaintext(r1, c, kind, e, plain.value).0, event);
    }
  }

  lemma ConnectedFramed(r: Room, c: ConnectionId)
    ensures GateFrame(r, r.(entries := Registered(r.entries, c)), ClientConnected(c))
    ensures GateFrame(r, r.(entries := PasswordMarked(r.entries, c)), PasswordVerified(c))
  {
    hide Roster, EnteredBy;
  }

  lemma JoinFramed(r: Room, c: ConnectionId, a: Application)
    ensures GateFrame(r, OnJoinRequested(r, c, a).0, JoinRequested(c, a))
  {
    hide Roster, EnteredBy;
    var r' := OnJoinRequested(r, c, a).0;
    forall id: RequestId | OpenRequest(r', id) ensures OpenRequest(r, id) || r.queue.nextId <= id < r'.queue.nextId {
      if HasRequestId(r'.queue.requests, id) {
        var i :| 0 <= i < |r'.queue.requests| && r'.queue.requests[i].id == id;
        if i < |r.queue.requests| { assert r.queue.requests[i].id == id; }
      }
    }
  }

  // The accepted request leaves the queue, and its application becomes the newest member.
  lemma AdmitFramed(r: Room, i: nat, event: Event)
    requires i < |r.queue.requests| && Accepts(event, r.queue.requests[i].id) && r.policyOpen && r.phase == Open
    requires Verified(r, r.queue.requests[i].connection)
    ensures GateFrame(r, Admit(r.(queue := TakeAt(r.queue, i)), r.queue.requests[i]).0, event)
  {
    hide SendAll, WrapAll, EnteredBy, Roster;
    var q := r.queue.requests[i];
    var taken := r.(queue := TakeAt(r.queue, i), entries := r.entries - {q.connection});
    TakenAway(r, i, q.connection);
    ShrinksIsFramed(r, taken, event);
    var r' := Admit(r.(queue := TakeAt(r.queue, i)), q).0;
    var added := AddMember(r.table, q.connection, q.application, r.epoch + 1);
    if added.Ok? {
      RosterPlus(r.table.members, added.value.1);
      IsEntered(r, event, i, Plain(added.value.1));
    }
    SameRequests(r, taken, r');
  }

  lemma SameRequests(r: Room, a: Room, b: Room)
    requires IdsFrom(r, a) && b.queue == a.queue && b.timeouts == a.timeouts
    ensures IdsFrom(r, b)
  {
  }

  lemma RosterPlus(members: seq<Member>, m: Member)
    ensures forall x :: x in Roster(members + [m]) ==> x in Roster(members) || x == Plain(m)
  {
    assert forall i :: 0 <= i < |members| ==> Roster(members + [m])[i] == Roster(members)[i];
  }

  lemma IsEntered(r: Room, event: Event, i: nat, m: Member)
    requires i < |r.queue.requests| && Accepts(event, r.queue.requests[i].id) && AdmittedFrom(m, r.queue.requests[i])
    ensures EnteredBy(r, event, m)
  {
  }

  lemma AcceptFramed(r: Room, id: RequestId, event: Event)
    requires RoomInv(r) && r.phase != Destroyed && r.phase != EpochTransition && Accepts(event, id)
    ensures GateFrame(r, OnAccept(r, id).0, event)
  {
    hide TableInv, LimitsInv, MarksInv, GateFrame, Shrinks, Admit, WithoutTimeout;
    SelfShrinks(r);
    ShrinksIsFramed(r, r, event);
    var t := PositionOfTimeout(r.timeouts, id);
    var p := PositionOfRequest(r.queue.requests, id);
    if t.Some? { TimeoutTaken(r, t.value); ShrinksIsFramed(r, WithoutTimeout(r, t.value), event); }
    else if p.Some? {
      QueuedIsVerified(r, p.value);
      AdmitFramed(r, p.value, event);
    }
  }

  lemma QueuedIsVerified(r: Room, i: nat)
    requires RosterInv(r) && i < |r.queue.requests|
    ensures Verified(r, r.queue.requests[i].connection) && r.policyOpen
  {
    hide TableInv, LimitsInv;
    assert r.entries[r.queue.requests[i].connection].role.AwaitingDecision?;
  }

  // ---- every event -------------------------------------------------------------------------------------

  lemma TransitionFramed(r: Room, event: Event)
    ensures GateFrame(r, HandleInTransition(r, event).0, event)
  {
    hide Shrinks, GateFrame, OnEpochAck, OnConnectionLost, OnEpochTimeout, OnChatReceived;
    SelfShrinks(r);
    ShrinksFrame(r, r, r.(phase := Destroyed));
    match event
    case EpochAck(c, epoch) => AckShrinks(r, c, epoch); ShrinksIsFramed(r, OnEpochAck(r, c, epoch).0, event);
    case ConnectionLost(c) => LostShrinks(r, c); ShrinksIsFramed(r, OnConnectionLost(r, c).0, event);
    case TimeoutExpired(c, _) =>
      LostShrinks(r, c);
      TimeoutShrinks(r);
      ShrinksIsFramed(r, OnConnectionLost(r, c).0, event);
      ShrinksIsFramed(r, OnEpochTimeout(r).0, event);
    case EpochMaintenance => TimeoutShrinks(r); ShrinksIsFramed(r, OnEpochTimeout(r).0, event);
    case ChatReceived(c, kind, e) => ChatFramed(r, c, kind, e, event); ShrinksIsFramed(r, r, event);
    case _ => ShrinksIsFramed(r, r, event); ShrinksIsFramed(r, r.(phase := Destroyed), event);
  }

  lemma HostCommandFramed(r: Room, command: HostCommand, event: Event)
    requires RoomInv(r) && r.phase != Destroyed && r.phase != EpochTransition && event == OnHostCommand(command)
    ensures GateFrame(r, OnHostCommandAt(r, command).0, event)
  {
    hide RoomInv, Shrinks, GateFrame, OnKick, OnNewId, SetPolicy, OnAccept, OnReject;
    match command
    case Kick(target) => KickShrinks(r, target); ShrinksIsFramed(r, OnKick(r, target).0, event);
    case NewId => NewIdShrinks(r); ShrinksIsFramed(r, OnNewId(r).0, event);
    case ReqOn => PolicyShrinks(r, true); ShrinksIsFramed(r, SetPolicy(r, true).0, event);
    case ReqOff => PolicyShrinks(r, false); ShrinksIsFramed(r, SetPolicy(r, false).0, event);
    case Requests => SelfShrinks(r); ShrinksIsFramed(r, r, event);
    case Accept(id) => AcceptFramed(r, id, event);
    case Reject(id) => RejectShrinks(r, id); ShrinksIsFramed(r, OnReject(r, id).0, event);
  }

  lemma SettledFramed(r: Room, event: Event)
    requires RoomInv(r) && r.phase != Destroyed && r.phase != EpochTransition
    ensures GateFrame(r, HandleSettled(r, event).0, event)
  {
    hide RoomInv, Shrinks, GateFrame, OnEpochAck, OnConnectionLost, OnChatReceived, OnMemberCommandAt, OnHostCommandAt,
      OnAccept, OnReject, OnMemberDeparted, OnJoinRequested, Registered, PasswordMarked;
    SelfShrinks(r);
    ShrinksFrame(r, r, r.(phase := Destroyed));
    match event
    case ClientConnected(c) => ConnectedFramed(r, c);
    case PasswordVerified(c) => ConnectedFramed(r, c);
    case EpochAck(c, epoch) => AckShrinks(r, c, epoch); ShrinksIsFramed(r, OnEpochAck(r, c, epoch).0, event);
    case JoinRequested(c, a) => JoinFramed(r, c, a);
    case OnHostCommand(command) => HostCommandFramed(r, command, event);
    case OnMemberCommand(c, command) => MembersCommandShrinks(r, c, command);
      ShrinksIsFramed(r, OnMemberCommandAt(r, c, command).0, event);
    case HostAccepted(id) => AcceptFramed(r, id, event);
    case HostRejected(id) => RejectShrinks(r, id); ShrinksIsFramed(r, OnReject(r, id).0, event);
    case ConnectionLost(c) => LostShrinks(r, c); ShrinksIsFramed(r, OnConnectionLost(r, c).0, event);
    case TimeoutExpired(c, _) => LostShrinks(r, c); ShrinksIsFramed(r, OnConnectionLost(r, c).0, event);
    case EpochMaintenance => ShrinksIsFramed(r, r, event);
    case MemberDeparted(id) => DepartedShrinks(r, id); ShrinksIsFramed(r, OnMemberDeparted(r, id).0, event);
    case ChatReceived(c, kind, e) => ChatFramed(r, c, kind, e, event);
    case TorStopped => ShrinksIsFramed(r, r, event); ShrinksIsFramed(r, r.(phase := Destroyed), event);
    case CloseRequested => ShrinksIsFramed(r, r, event); ShrinksIsFramed(r, r.(phase := Destroyed), event);
  }

  // One event adds to the gate only what its own step of the admission adds.
  lemma {:induction false} HandleFramed(r: Room, event: Event, now: Time)
    requires RoomInv(r)
    ensures GateFrame(r, Handle(r, event, now).0, event)
  {
    hide RoomInv, Shrinks, GateFrame, HandleInTransition, HandleSettled;
    var at := r.(now := now);
    RoomAt(r, now);
    SelfShrinks(r);
    ShrinksFrame(r, r, at);
    ShrinksIsFramed(r, at, event);
    if r.phase == EpochTransition {
      TransitionFramed(at, event);
      GateFrameFrom(at, r, HandleInTransition(at, event).0, event);
    } else if r.phase != Destroyed {
      SettledFramed(at, event);
      GateFrameFrom(at, r, HandleSettled(at, event).0, event);
    }
  }
}
