// The room actor as a deterministic state machine (src/room/actor.rs): one function per
// handler, from a room and an event to the new room and the actions or the error it returns.
// An error keeps the state changes made before it, as returning early does in the source.
module Actor {
  import opened Wrappers
  import opened RoomTypes
  import opened Members
  import opened Registry
  import opened Requests
  import opened Replay
  import opened RateLimit
  import opened ChatCrypto
  import Session

  datatype Phase = Open | Locked | EpochTransition | Destroyed

  datatype PendingEpoch = PendingEpoch(
    epoch: nat, key: EpochKey, awaiting: seq<MemberId>, startedAt: Time)

  datatype Room = Room(
    hostConnection: ConnectionId, hostKey: PublicKey, acknowledgeWithin: Time,
    phase: Phase, policyOpen: bool, table: Table, entries: Entries, queue: Queue,
    timeouts: seq<TimeoutRequest>, roomTimeout: Option<nat>,
    epoch: nat, epochKey: Option<EpochKey>, pending: Option<PendingEpoch>,
    sequence: nat, replay: Marks, limits: map<MemberId, Bucket>,
    deferred: seq<Action>, now: Time, nextKey: nat)

  type Reply = Result<seq<Action>, RoomError>

  datatype HostIdentity = HostIdentity(
    connection: ConnectionId, nickname: Nickname, ed25519: PublicKey, x25519: PublicKey,
    signingKey: PublicKey)

  // A room that nobody but its host has entered, before it starts; the phase is the one it takes
  // when it starts.
  function Created(host: HostIdentity, memberLimit: nat, requestLimit: nat, acknowledgeWithin: Time): Room {
    var table := Table(memberLimit, 1, [HostMember(host.connection, host.nickname, host.ed25519, host.x25519)]);
    Room(host.connection, host.signingKey, acknowledgeWithin, Open, true, table, map[],
      Queue(requestLimit, 0, []), [], None, 0, None, None, 0, map[], map[], [], 0.0, 0)
  }

  function Start(created: Room): (Room, seq<Action>) {
    var c := created.hostConnection;
    var (r, wraps) := BeginEpochTransition(
      created.(entries := WithRole(Registered(created.entries, c), c, ActiveMember(HOST_ID))));
    (r, [Notify(InvitationRotated)] + wraps)
  }

  // `create` followed by `start`.
  function Started(host: HostIdentity, memberLimit: nat, requestLimit: nat, acknowledgeWithin: Time)
    : (Room, seq<Action>)
  {
    Start(Created(host, memberLimit, requestLimit, acknowledgeWithin))
  }

  // ---- batches ---------------------------------------------------------------

  // The member a broadcast leaves out.
  datatype Skip = Nobody | TheHost | TheMember(id: MemberId) | TheConnection(c: ConnectionId)

  predicate Skipped(skip: Skip, m: Member) {
    match skip
    case Nobody => false
    case TheHost => m.isHost
    case TheMember(id) => m.id == id
    case TheConnection(c) => m.connection == c
  }

  function SendAll(members: seq<Member>, skip: Skip, message: Message): seq<Action>
    decreases |members|
  {
    if members == [] then [] else
      var m := members[|members| - 1];
      SendAll(members[..|members| - 1], skip, message) +
      if Skipped(skip, m) then [] else [SendTo(m.connection, message)]
  }

  function WrapFor(m: Member, epoch: nat, key: EpochKey): Action {
    SendTo(m.connection, EpochWrap(epoch, key, m.id, m.x25519))
  }

  function WrapAll(members: seq<Member>, epoch: nat, key: EpochKey): seq<Action> {
    seq(|members|, i requires 0 <= i < |members| => WrapFor(members[i], epoch, key))
  }

  function SignedEvent(r: Room, body: EventBody): Message {
    RoomEvent(r.sequence, r.epoch, body, Signature(r.hostKey, r.sequence, r.epoch, body))
  }

  // ---- epochs ----------------------------------------------------------------

  function BeginEpochTransition(r: Room): (Room, seq<Action>) {
    var epoch := r.epoch + 1;
    var key := EpochKey(r.nextKey);
    (r.(epoch := epoch, nextKey := r.nextKey + 1, replay := Retained(r.replay, epoch),
        sequence := r.sequence + 1, phase := EpochTransition,
        pending := Some(PendingEpoch(epoch, key, IdsOf(r.table.members), r.now))),
     WrapAll(r.table.members, epoch, key))
  }

  function SnapshotEntry(m: Member): SnapshotMember {
    SnapshotMember(m.id, m.nickname, m.color.Index(), m.isHost, m.ed25519)
  }

  function SnapshotOf(members: seq<Member>): seq<SnapshotMember> {
    seq(|members|, i requires 0 <= i < |members| => SnapshotEntry(members[i]))
  }

  function QueueMemberJoined(r: Room, m: Member): Room {
    var r1 := r.(sequence := r.sequence + 1);
    var joined := SendAll(r1.table.members, TheMember(m.id), SignedEvent(r1, Joined(m.id, m.nickname, m.ed25519)));
    var r2 := r1.(deferred := r1.deferred + joined, sequence := r1.sequence + 1);
    r2.(deferred := r2.deferred +
      [SendTo(m.connection, SignedEvent(r2, Snapshot(SnapshotOf(r2.table.members))))])
  }

  function GoneBody(id: MemberId, kicked: bool): EventBody {
    if kicked then Kicked(id) else Left(id)
  }

  function QueueMemberGone(r: Room, id: MemberId, kicked: bool): Room {
    var r1 := r.(sequence := r.sequence + 1);
    r1.(deferred := r1.deferred + SendAll(r1.table.members, Nobody, SignedEvent(r1, GoneBody(id, kicked))))
  }

  // Forgets a member: table entry, connection and rate limiter.
  function DropMember(r: Room, i: nat): Room
    requires i < |r.table.members|
  {
    var m := r.table.members[i];
    r.(table := r.table.(members := Without(r.table.members, i)),
       entries := r.entries - {m.connection}, limits := r.limits - {m.id})
  }

  // The outer None is the refusal to remove the host; the inner one an unknown member.
  function RemoveMember(r: Room, id: MemberId, kicked: bool): Option<(Room, seq<Action>, Option<Member>)> {
    if id == HOST_ID then None
    else match PositionOfId(r.table.members, id)
      case None => Some((r, [], None))
      case Some(i) =>
        var (r1, wraps) := BeginEpochTransition(DropMember(r, i));
        Some((QueueMemberGone(r1, id, kicked), wraps, Some(r.table.members[i])))
  }

  function RetainNot(ids: seq<MemberId>, id: MemberId): (kept: seq<MemberId>)
    ensures forall k :: k in kept <==> k in ids && k != id
    ensures |kept| <= |ids|
    ensures id in ids ==> |kept| < |ids|
    ensures id !in ids ==> kept == ids
  {
    if ids == [] then [] else
      var kept := RetainNot(ids[..|ids| - 1], id);
      var last := ids[|ids| - 1];
      assert ids == ids[..|ids| - 1] + [last];
      if last == id then kept else kept + [last]
  }

  function OnEpochAck(r: Room, c: ConnectionId, epoch: nat): (Room, Reply) {
    match r.pending
    case None => (r, Ok([]))
    case Some(p) =>
      if epoch != p.epoch then (r, Ok([]))
      else match MemberOf(r.entries, c)
        case None => (r, Ok([]))
        case Some(id) =>
          var rest := RetainNot(p.awaiting, id);
          if |rest| == |p.awaiting| then (r, Ok([]))
          else if rest != [] then (r.(pending := Some(p.(awaiting := rest))), Ok([]))
          else
            (r.(pending := None, epochKey := Some(p.key), deferred := [],
                phase := if r.policyOpen then Open else Locked),
             Ok(r.deferred +
                if r.roomTimeout.Some? then [Notify(TimeoutRebroadcast(r.roomTimeout.value))] else []))
  }

  // Evicts the members that are still in the table, oldest first.
  function EvictAll(r: Room, ids: seq<MemberId>): (Room, seq<Action>, seq<MemberId>)
    decreases |ids|
  {
    if ids == [] then (r, [], []) else
      var (r1, actions, removed) := EvictAll(r, ids[..|ids| - 1]);
      var id := ids[|ids| - 1];
      match PositionOfId(r1.table.members, id)
      case None => (r1, actions, removed)
      case Some(i) =>
        var m := r1.table.members[i];
        (DropMember(r1, i),
         actions + [CloseConnection(m.connection), Notify(MemberLeft(id, m.nickname))], removed + [id])
  }

  function QueueAllGone(r: Room, ids: seq<MemberId>, kicked: bool): Room
    decreases |ids|
  {
    if ids == [] then r else
      QueueMemberGone(QueueAllGone(r, ids[..|ids| - 1], kicked), ids[|ids| - 1], kicked)
  }

  function Elapsed(now: Time, since: Time): Time { if now <= since then 0.0 else now - since }

  function OnEpochTimeout(r: Room): (Room, Reply) {
    match r.pending
    case None => (r, Ok([]))
    case Some(p) =>
      if Elapsed(r.now, p.startedAt) < r.acknowledgeWithin then (r, Ok([]))
      else if HOST_ID in p.awaiting then CloseRoom(r.(pending := None))
      else
        var (r1, actions, removed) := EvictAll(r.(pending := None), p.awaiting);
        var (r2, wraps) := BeginEpochTransition(r1);
        (QueueAllGone(r2, removed, false), Ok(actions + wraps))
  }

  function CloseRoom(r: Room): (Room, Reply) {
    if r.phase == Destroyed then (r, Err(RoomClosed))
    else (r.(phase := Destroyed), Ok([ShutdownAll(r.entries.Keys), Notify(RoomClosedNotice)]))
  }

  // ---- admission -------------------------------------------------------------

  function OnJoinRequested(r: Room, c: ConnectionId, a: Application): (Room, Reply) {
    if !r.policyOpen then (r, Err(PolicyLocked))
    else if c !in r.entries then (r, Err(UnknownConnection))
    else if !r.entries[c].passwordVerified || !r.entries[c].role.InAdmission? then (r, Err(NotAMember))
    else match Push(r.queue, c, a)
      case None => (r, Err(QueueFull))
      case Some((q, id)) =>
        (r.(queue := q, entries := WithRole(r.entries, c, AwaitingDecision(id)), sequence := r.sequence + 1),
         Ok([Notify(JoinRequestPending(id, c, a.nickname))]))
  }

  function PositionOfTimeout(requests: seq<TimeoutRequest>, id: RequestId): (p: Option<nat>)
    ensures p.Some? ==> p.value < |requests| && requests[p.value].id == id
    ensures p.None? ==> forall i :: 0 <= i < |requests| ==> requests[i].id != id
  {
    if requests == [] then None else
      match PositionOfTimeout(requests[..|requests| - 1], id)
      case Some(i) => Some(i)
      case None =>
        if requests[|requests| - 1].id == id then Some(|requests| - 1) else None
  }

  function WithoutTimeout(r: Room, i: nat): Room
    requires i < |r.timeouts|
  {
    r.(timeouts := r.timeouts[..i] + r.timeouts[i + 1..])
  }

  function OnAccept(r: Room, id: RequestId): (Room, Reply) {
    match PositionOfTimeout(r.timeouts, id)
    case Some(i) => (WithoutTimeout(r, i), Ok([Notify(TimeoutRequestAccepted(id, r.timeouts[i].seconds))]))
    case None =>
      match PositionOfRequest(r.queue.requests, id)
      case None => (r, Err(UnknownRequest))
      case Some(i) => Admit(r.(queue := TakeAt(r.queue, i)), r.queue.requests[i])
  }

  function Admit(r: Room, q: JoinRequest): (Room, Reply) {
    var c := q.connection;
    match AddMember(r.table, c, q.application, r.epoch + 1)
    case Ok((table, m)) =>
      var admitted := r.(table := table,
                         entries := WithRole(Registered(r.entries, c), c, ActiveMember(m.id)));
      var (r1, wraps) := BeginEpochTransition(admitted);
      (QueueMemberJoined(r1, m),
       Ok([SendTo(c, JoinAccepted(m.id)), Notify(MemberJoined(m.id, m.nickname))] + wraps))
    case Err(_) =>
      (r.(entries := r.entries - {c}),
       Ok([SendTo(c, JoinRejected), CloseConnection(c), Notify(ErrorNotice)] +
          if RequestOf(r.entries, c).Some?
          then [Notify(JoinRequestWithdrawn(RequestOf(r.entries, c).value))] else []))
  }

  function OnReject(r: Room, id: RequestId): (Room, Reply) {
    match PositionOfTimeout(r.timeouts, id)
    case Some(i) => (WithoutTimeout(r, i), Ok([Notify(TimeoutRequestRejected(id))]))
    case None =>
      match PositionOfRequest(r.queue.requests, id)
      case None => (r, Err(UnknownRequest))
      case Some(i) =>
        var c := r.queue.requests[i].connection;
        (r.(queue := TakeAt(r.queue, i), entries := r.entries - {c}),
         Ok([SendTo(c, JoinRejected), CloseConnection(c)]))
  }

  function WithdrawAll(requests: seq<JoinRequest>): seq<Action>
    decreases |requests|
  {
    if requests == [] then [] else
      var q := requests[|requests| - 1];
      WithdrawAll(requests[..|requests| - 1]) +
      [CloseConnection(q.connection), Notify(JoinRequestWithdrawn(q.id))]
  }

  function ConnectionsOf(requests: seq<JoinRequest>): set<ConnectionId> {
    set i | 0 <= i < |requests| :: requests[i].connection
  }

  // Closes every flow that is not a member: first the queued ones, then whatever is left.
  function CloseAdmissions(r: Room): (Room, seq<Action>) {
    var queued := r.entries - ConnectionsOf(r.queue.requests);
    (r.(queue := r.queue.(requests := []), entries := queued - NonMembers(queued)),
     WithdrawAll(r.queue.requests) + [CloseAll(NonMembers(queued))])
  }

  function OnNewId(r: Room): (Room, Reply) {
    var (r1, closed) := CloseAdmissions(r.(sequence := r.sequence + 1));
    (r1, Ok(closed + [Notify(InvitationRotated)]))
  }

  function SetPolicy(r: Room, open: bool): (Room, Reply) {
    var (r1, closed) := if open then (r, []) else CloseAdmissions(r);
    var r2 := r1.(policyOpen := open, phase := if open then Open else Locked, sequence := r1.sequence + 1);
    (r2, Ok(closed + SendAll(r2.table.members, TheHost, SignedEvent(r2, PolicyChanged(open))) +
            [Notify(JoinPolicyNotice(open))]))
  }

  // ---- members ---------------------------------------------------------------

  function OnLeave(r: Room, c: ConnectionId): (Room, Reply) {
    if c == r.hostConnection then (r, Err(HostCannotLeave))
    else match MemberOf(r.entries, c)
      case None => (r, Err(NotAMember))
      case Some(id) =>
        match RemoveMember(r, id, false)
        case None => (r, Err(HostCannotLeave))
        case Some((r1, wraps, None)) => (r1, Ok([]))
        case Some((r1, wraps, Some(m))) =>
          (r1, Ok(wraps + [SendTo(c, Shutdown), CloseConnection(c), Notify(MemberLeft(id, m.nickname))]))
  }

  function OnColor(r: Room, c: ConnectionId, color: Color): (Room, Reply) {
    var member := match MemberOf(r.entries, c)
      case Some(id) => Some(id)
      case None => if c == r.hostConnection then Some(HOST_ID) else None;
    match member
    case None => (r, Err(NotAMember))
    case Some(id) => (Recolored(r, id, color), Ok([]))
  }

  function Recolored(r: Room, id: MemberId, color: Color): Room {
    match PositionOfId(r.table.members, id)
    case None => r
    case Some(i) => r.(table := SetColorAt(r.table, i, color))
  }

  function Resolve(r: Room, target: MemberRef): Result<nat, RoomError> {
    match target
    case ById(id) =>
      (match PositionOfId(r.table.members, id) case None => Err(UnknownMember) case Some(i) => Ok(i))
    case ByNickname(nickname) =>
      if nickname.text == "" then Err(EmptyMemberRef)
      else match PositionOfNickname(r.table.members, nickname)
        case None => Err(UnknownMember) case Some(i) => Ok(i)
  }

  function OnKick(r: Room, target: MemberRef): (Room, Reply) {
    match Resolve(r, target)
    case Err(error) => (r, Err(error))
    case Ok(i) =>
      if i >= |r.table.members| then (r, Err(UnknownMember))
      else
        var m := r.table.members[i];
        if m.isHost then (r, Err(CannotKickHost))
        else match RemoveMember(r, m.id, true)
          case None => (r, Err(HostCannotLeave))
          case Some((r1, wraps, None)) => (r1, Ok([]))
          case Some((r1, wraps, Some(gone))) =>
            (r1, Ok(wraps + [CloseConnection(m.connection), Notify(MemberKicked(m.id, gone.nickname))]))
  }

  function TimeoutsNotOf(requests: seq<TimeoutRequest>, c: ConnectionId): seq<TimeoutRequest>
    decreases |requests|
  {
    if requests == [] then [] else
      TimeoutsNotOf(requests[..|requests| - 1], c) +
      if requests[|requests| - 1].connection == c then [] else [requests[|requests| - 1]]
  }

  function RejectTimeoutsOf(requests: seq<TimeoutRequest>, c: ConnectionId): seq<Action>
    decreases |requests|
  {
    if requests == [] then [] else
      RejectTimeoutsOf(requests[..|requests| - 1], c) +
      if requests[|requests| - 1].connection == c
      then [Notify(TimeoutRequestRejected(requests[|requests| - 1].id))] else []
  }

  function OnConnectionLost(r: Room, c: ConnectionId): (Room, Reply) {
    if c == r.hostConnection then CloseRoom(r)
    else
      var rejected := RejectTimeoutsOf(r.timeouts, c);
      var r0 := r.(timeouts := TimeoutsNotOf(r.timeouts, c));
      var member := match MemberOf(r0.entries, c)
        case Some(id) => Some(id)
        case None =>
          match PositionOfConnection(r0.table.members, c)
          case None => None
          case Some(i) => Some(r0.table.members[i].id);
      match member
      case Some(id) =>
        (match RemoveMember(r0, id, false)
          case None => (r0, Err(HostCannotLeave))
          case Some((r1, wraps, gone)) =>
            (r1.(entries := r1.entries - {c}),
             Ok(rejected + wraps +
                if gone.Some? then [Notify(MemberLeft(id, gone.value.nickname))] else [])))
      case None =>
        var withdrawn := match RequestOf(r0.entries, c)
          case None => None
          case Some(id) => PositionOfRequest(r0.queue.requests, id);
        match withdrawn
        case None => (r0.(entries := r0.entries - {c}), Ok(rejected))
        case Some(i) =>
          (r0.(queue := TakeAt(r0.queue, i), entries := r0.entries - {c}),
           Ok(rejected + [Notify(JoinRequestWithdrawn(r0.queue.requests[i].id))]))
  }

  function OnMemberDeparted(r: Room, id: MemberId): (Room, Reply) {
    match RemoveMember(r, id, false)
    case None => (r, Err(HostCannotLeave))
    case Some((r1, wraps, None)) => (r1, Ok([]))
    case Some((r1, wraps, Some(m))) => (r1, Ok(wraps + [Notify(MemberLeft(id, m.nickname))]))
  }

  // ---- chat relay ------------------------------------------------------------

  predicate HasAckedPending(r: Room, c: ConnectionId) {
    r.pending.None? ||
    (MemberOf(r.entries, c).Some? && MemberOf(r.entries, c).value !in r.pending.value.awaiting)
  }

  function RejectDuringTransition(r: Room, c: ConnectionId): Reply {
    if c == r.hostConnection then Ok([Notify(ErrorNotice)]) else Ok([SendTo(c, ErrorMessage)])
  }

  function ChatKey(r: Room): Option<(nat, EpochKey)> {
    if r.pending.Some? then Some((r.pending.value.epoch, r.pending.value.key))
    else if r.epochKey.Some? then Some((r.epoch, r.epochKey.value))
    else None
  }

  predicate RateLimited(kind: nat) { kind == MSG_CHAT || kind == MSG_COLOR || kind == MSG_TIMEOUT_REQUEST }

  const RATE_LIMIT_TERMINATION: nat := 10

  function BucketOf(r: Room, id: MemberId): Bucket {
    if id in r.limits then r.limits[id] else NewBucket(MEMBER_BURST, MEMBER_RATE)
  }

  function OnChatReceived(r: Room, c: ConnectionId, kind: nat, e: Envelope): (Room, Reply) {
    if !RateLimited(kind) && kind != MSG_TIMEOUT_CHANGED then (r, Err(ChatRefused(InvalidPlaintext)))
    else match MemberOf(r.entries, c)
      case None => (r, Err(NotAMember))
      case Some(id) =>
        if e.sender != id then (r, Err(ChatRefused(UnknownSender)))
        else if PositionOfId(r.table.members, id).None? then (r, Err(NotAMember))
        else if !RateLimited(kind) then OpenAndRelay(r, c, kind, e)
        else
          var (bucket, allowed) := Allow(BucketOf(r, id), r.now);
          var r1 := r.(limits := r.limits[id := bucket]);
          if allowed then OpenAndRelay(r1, c, kind, e)
          else OverLimit(r1, c, id, bucket.violations >= RATE_LIMIT_TERMINATION)
  }

  function OverLimit(r: Room, c: ConnectionId, id: MemberId, abusive: bool): (Room, Reply) {
    var warning := [SendTo(c, ErrorMessage), Notify(ErrorNotice)];
    if !abusive then (r, Ok(warning))
    else match RemoveMember(r, id, true)
      case None => (r, Err(HostCannotLeave))
      case Some((r1, wraps, None)) => (r1, Ok(warning))
      case Some((r1, wraps, Some(m))) =>
        (r1, Ok(warning + wraps + [CloseConnection(c), Notify(MemberKicked(id, m.nickname))]))
  }

  // Epoch and replay first, then signature and AEAD; the sequence is recorded only after a
  // successful open, and stays recorded when the payload turns out to be invalid.
  function OpenAndRelay(r: Room, c: ConnectionId, kind: nat, e: Envelope): (Room, Reply) {
    if e.epoch != r.epoch then (r, Err(WrongEpoch(e.epoch, r.epoch)))
    else if !Fresh(r.replay, e.sender, r.epoch, e.sequence) then (r, Err(Replayed(e.sender, e.sequence)))
    else match ChatPlaintext(r, kind, e)
      case Err(error) => (r, Err(ChatRefused(error)))
      case Ok(p) =>
        RelayPlaintext(r.(replay := Accepted(r.replay, e.sender, r.epoch, e.sequence)), c, kind, e, p)
  }

  function ChatPlaintext(r: Room, kind: nat, e: Envelope): Result<Plaintext, ChatError> {
    match ChatKey(r)
    case None => Err(NoEpochKey)
    case Some((epoch, key)) =>
      match PositionOfId(r.table.members, e.sender)
      case None => Err(UnknownSender)
      case Some(i) =>
        ChatCrypto.Open(key, r.table.members[i].ed25519, Context(epoch, e.sender, e.sequence, kind), e.sealed)
  }

  function RelayPlaintext(r: Room, c: ConnectionId, kind: nat, e: Envelope, p: Plaintext): (Room, Reply) {
    if kind == MSG_COLOR then
      if |p.data| != 1 then (r, Err(ChatRefused(InvalidPlaintext)))
      else match ColorFromIndex(p.data[0])
        case None => (r, Err(BadColor(p.data[0])))
        case Some(color) => Relay(Recolored(r, e.sender, color), c, kind, e)
    else if kind == MSG_TIMEOUT_REQUEST then AskForTimeout(r, c, e, p)
    else if kind == MSG_TIMEOUT_CHANGED then
      if e.sender != HOST_ID then (r, Err(ChatRefused(InvalidPlaintext)))
      else match Session.TimeoutPayload(p)
        case Err(error) => (r, Err(ChatRefused(InvalidPlaintext)))
        case Ok(setting) => Relay(r.(roomTimeout := setting), c, kind, e)
    else if !p.isText then (r, Err(ChatRefused(InvalidPlaintext)))
    else Relay(r, c, kind, e)
  }

  function AskForTimeout(r: Room, c: ConnectionId, e: Envelope, p: Plaintext): (Room, Reply) {
    if e.sender == HOST_ID || |p.data| != 8 || !Session.SecondsInRange(Bytes.FromBigEndian(p.data))
    then (r, Err(ChatRefused(InvalidPlaintext)))
    else if |r.queue.requests| + |r.timeouts| >= r.queue.limit then (r, Err(QueueFull))
    else match PositionOfId(r.table.members, e.sender)
      case None => (r, Err(NotAMember))
      case Some(i) =>
        var id := r.queue.nextId;
        var seconds := Bytes.FromBigEndian(p.data);
        var nickname := r.table.members[i].nickname;
        (r.(queue := r.queue.(nextId := id + 1),
            timeouts := r.timeouts + [TimeoutRequest(id, c, e.sender, nickname, seconds)]),
         Ok([Notify(TimeoutRequestPending(id, e.sender, nickname, seconds))]))
  }

  function Relay(r: Room, c: ConnectionId, kind: nat, e: Envelope): (Room, Reply) {
    (r, Ok(SendAll(r.table.members, TheConnection(c), Relayed(kind, e))))
  }

  // ---- dispatch --------------------------------------------------------------

  function OnHostCommandAt(r: Room, command: HostCommand): (Room, Reply) {
    match command
    case Kick(target) => OnKick(r, target)
    case NewId => OnNewId(r)
    case ReqOn => SetPolicy(r, true)
    case ReqOff => SetPolicy(r, false)
    case Requests => (r, Ok([Notify(RequestsSnapshot(r.queue.requests, r.timeouts))]))
    case Accept(id) => OnAccept(r, id)
    case Reject(id) => OnReject(r, id)
  }

  function OnMemberCommandAt(r: Room, c: ConnectionId, command: MemberCommand): (Room, Reply) {
    match command
    case Leave => OnLeave(r, c)
    case SetColor(color) => OnColor(r, c, color)
    case List => (r, Ok([Notify(ListSnapshot(r.table.members))]))
    case Whois(nickname) =>
      match Resolve(r, ByNickname(nickname))
      case Err(error) => (r, Err(error))
      case Ok(i) =>
        (r, if i < |r.table.members| then Ok([Notify(WhoisResult(r.table.members[i]))]) else Err(UnknownMember))
  }

  // `handle_event_at` while an epoch transition is pending.
  function HandleInTransition(r: Room, event: Event): (Room, Reply) {
    match event
    case EpochAck(c, epoch) => OnEpochAck(r, c, epoch)
    case ConnectionLost(c) => OnConnectionLost(r, c)
    case TimeoutExpired(c, acknowledgement) =>
      if acknowledgement then OnEpochTimeout(r) else OnConnectionLost(r, c)
    case EpochMaintenance => OnEpochTimeout(r)
    case CloseRequested => CloseRoom(r)
    case TorStopped => CloseRoom(r)
    case OnHostCommand(Requests) => OnHostCommandAt(r, Requests)
    case ChatReceived(c, kind, e) =>
      if HasAckedPending(r, c) then OnChatReceived(r, c, kind, e) else (r, RejectDuringTransition(r, c))
    case _ => (r, Err(EpochTransitionInProgress))
  }

  function HandleSettled(r: Room, event: Event): (Room, Reply) {
    match event
    case ClientConnected(c) => (r.(entries := Registered(r.entries, c)), Ok([]))
    case PasswordVerified(c) => (r.(entries := PasswordMarked(r.entries, c)), Ok([]))
    case EpochAck(c, epoch) => OnEpochAck(r, c, epoch)
    case JoinRequested(c, a) => OnJoinRequested(r, c, a)
    case OnHostCommand(command) => OnHostCommandAt(r, command)
    case OnMemberCommand(c, command) => OnMemberCommandAt(r, c, command)
    case HostAccepted(id) => OnAccept(r, id)
    case HostRejected(id) => OnReject(r, id)
    case ConnectionLost(c) => OnConnectionLost(r, c)
    case TimeoutExpired(c, _) => OnConnectionLost(r, c)
    case EpochMaintenance => (r, Ok([]))
    case MemberDeparted(id) => OnMemberDeparted(r, id)
    case ChatReceived(c, kind, e) => OnChatReceived(r, c, kind, e)
    case TorStopped => CloseRoom(r)
    case CloseRequested => CloseRoom(r)
  }

  // `handle_event_at`.
  function Handle(r: Room, event: Event, now: Time): (Room, Reply) {
    var at := r.(now := now);
    if at.phase == Destroyed then (at, Err(RoomClosed))
    else if at.phase == EpochTransition then HandleInTransition(at, event)
    else HandleSettled(at, event)
  }
}
