// What one member knows: the values of a ChatSession and the effect of each message on them
// (src/chat/session.rs, and the message dispatch of src/admission/client.rs).
module Session {
  import opened Wrappers
  import opened RoomTypes
  import opened Replay
  import opened ChatCrypto

  datatype MemberView = MemberView(
    id: MemberId, nickname: Nickname, color: Color, isHost: bool, ed25519: PublicKey)

  datatype Chat = Chat(
    hostKey: PublicKey, ownKey: PublicKey, memberId: MemberId,
    epoch: Option<(nat, EpochKey)>, senderSequence: nat, members: seq<MemberView>,
    replay: Marks, lastRoomSequence: Option<nat>, policyOpen: bool)

  function NewChat(hostKey: PublicKey, ownKey: PublicKey, id: MemberId): Chat {
    Chat(hostKey, ownKey, id, None, 0, [], map[], None, true)
  }

  function PositionOfView(views: seq<MemberView>, id: MemberId): (p: Option<nat>)
    ensures p.Some? ==> p.value < |views| && views[p.value].id == id
    ensures p.None? ==> forall i :: 0 <= i < |views| ==> views[i].id != id
  {
    if views == [] then None else
      match PositionOfView(views[..|views| - 1], id)
      case Some(i) => Some(i)
      case None => if views[|views| - 1].id == id then Some(|views| - 1) else None
  }

  // ---- epochs ----------------------------------------------------------------

  // Installs the key of a wrap addressed to this member; a wrap for another participant
  // does not unwrap.
  function SetEpochFromWrap(s: Chat, m: Message): Result<Chat, ChatError>
    requires m.EpochWrap?
  {
    if s.epoch.Some? && m.epoch <= s.epoch.value.0 then Err(OldEpoch)
    else if m.recipient != s.memberId || m.recipientKey != s.ownKey then Err(InvalidCiphertext)
    else Ok(InstallEpoch(s, m.epoch, m.key))
  }

  function InstallEpoch(s: Chat, epoch: nat, key: EpochKey): Chat {
    if s.epoch.Some? && epoch <= s.epoch.value.0 then s
    else s.(epoch := Some((epoch, key)), replay := Retained(s.replay, epoch))
  }

  // ---- chat-layer envelopes ----------------------------------------------------

  function SealNext(s: Chat, signer: PublicKey, kind: nat, plaintext: Plaintext): Result<(Chat, Envelope), ChatError> {
    match s.epoch
    case None => Err(NoEpochKey)
    case Some((epoch, key)) =>
      var n := s.senderSequence + 1;
      Ok((s.(senderSequence := n),
          Envelope(epoch, s.memberId, n, Seal(key, signer, Context(epoch, s.memberId, n, kind), plaintext))))
  }

  function OpenEnvelope(s: Chat, kind: nat, e: Envelope): (Chat, Result<Plaintext, ChatError>) {
    match s.epoch
    case None => (s, Err(NoEpochKey))
    case Some((epoch, key)) =>
      if e.epoch != epoch then (s, Err(OldEpoch))
      else
        match PositionOfView(s.members, e.sender)
        case None => (s, Err(UnknownSender))
        case Some(i) =>
          if !Fresh(s.replay, e.sender, epoch, e.sequence) then (s, Err(ReplayRejected))
          else
            match Open(key, s.members[i].ed25519, Context(epoch, e.sender, e.sequence, kind), e.sealed)
            case Err(error) => (s, Err(error))
            case Ok(p) => (s.(replay := Accepted(s.replay, e.sender, epoch, e.sequence)), Ok(p))
  }

  predicate SecondsInRange(seconds: nat) { 1 <= seconds <= MAX_TIMEOUT_SECONDS }

  function ColorPayload(p: Plaintext): Result<Color, ChatError> {
    if |p.data| != 1 then Err(InvalidPlaintext)
    else match ColorFromIndex(p.data[0])
      case None => Err(UnknownColor)
      case Some(c) => Ok(c)
  }

  // A one-byte flag and eight big-endian bytes; a disabled timeout is all zeroes.
  function TimeoutPayload(p: Plaintext): Result<Option<nat>, ChatError> {
    if |p.data| != 9 then Err(InvalidPlaintext)
    else
      var seconds := Bytes.FromBigEndian(p.data[1..]);
      if p.data[0] == 0 && p.data[1..] == [0, 0, 0, 0, 0, 0, 0, 0] then Ok(None)
      else if p.data[0] == 1 && SecondsInRange(seconds) then Ok(Some(seconds))
      else Err(InvalidPlaintext)
  }

  // `receive_chat`, `receive_color` and `receive_timeout_changed`: open, then validate.
  function ReceiveEnvelope(s: Chat, kind: nat, e: Envelope): (Chat, Result<Plaintext, ChatError>) {
    if kind == MSG_TIMEOUT_CHANGED && e.sender != HOST_ID then (s, Err(InvalidPlaintext))
    else if kind != MSG_CHAT && kind != MSG_COLOR && kind != MSG_TIMEOUT_CHANGED then (s, Err(InvalidPlaintext))
    else
      var (s', r) := OpenEnvelope(s, kind, e);
      match r
      case Err(error) => (s', r)
      case Ok(p) =>
        if kind == MSG_CHAT then (s', if p.isText then r else Err(InvalidPlaintext))
        else if kind == MSG_TIMEOUT_CHANGED then
          (s', if TimeoutPayload(p).Ok? then r else Err(InvalidPlaintext))
        else
          match ColorPayload(p)
          case Err(error) => (s', Err(error))
          case Ok(color) => (WithColor(s', e.sender, color), r)
  }

  function WithColor(s: Chat, id: MemberId, color: Color): Chat {
    match PositionOfView(s.members, id)
    case None => s
    case Some(i) => s.(members := s.members[i := s.members[i].(color := color)])
  }

  // ---- signed room events --------------------------------------------------------

  function VerifyRoomEvent(s: Chat, m: Message): Result<Chat, ChatError>
    requires m.RoomEvent?
  {
    if m.signature != Signature(s.hostKey, m.sequence, m.epoch, m.body) then Err(InvalidSignature)
    else if s.epoch.Some? && m.epoch != s.epoch.value.0 then Err(OldEpoch)
    else if s.lastRoomSequence.Some? && m.sequence <= s.lastRoomSequence.value then Err(ReplayRejected)
    else Ok(s.(lastRoomSequence := Some(m.sequence)))
  }

  predicate KnownIdentity(views: seq<MemberView>, id: MemberId, nickname: Nickname, ed25519: PublicKey) {
    exists i :: 0 <= i < |views| &&
      (views[i].id == id || views[i].nickname == nickname || views[i].ed25519 == ed25519)
  }

  predicate SnapshotDuplicate(ms: seq<SnapshotMember>, i: nat)
    requires i < |ms|
  {
    exists j :: 0 <= j < i &&
      (ms[j].id == ms[i].id || ms[j].nickname == ms[i].nickname || ms[j].ed25519 == ms[i].ed25519)
  }

  function HostCount(ms: seq<SnapshotMember>): nat {
    if ms == [] then 0 else
      HostCount(ms[..|ms| - 1]) + (if ms[|ms| - 1].isHost && ms[|ms| - 1].id == HOST_ID then 1 else 0)
  }

  predicate SnapshotEntryOk(ms: seq<SnapshotMember>, i: nat)
    requires i < |ms|
  {
    ms[i].nickname.valid && ColorFromIndex(ms[i].color).Some? && !SnapshotDuplicate(ms, i)
  }

  predicate SnapshotOk(ms: seq<SnapshotMember>, own: MemberId) {
    && ms != []
    && (exists i :: 0 <= i < |ms| && ms[i].id == own)
    && |ms| <= MAX_MEMBERS
    && HostCount(ms) == 1
    && (forall i :: 0 <= i < |ms| ==> (ms[i].isHost <==> ms[i].id == HOST_ID))
    && (forall i :: 0 <= i < |ms| ==> SnapshotEntryOk(ms, i))
  }

  // The entries are looked at in order; the first one that is wrong decides the error.
  function EntryError(ms: seq<SnapshotMember>, i: nat): (error: Option<ChatError>)
    requires i <= |ms|
    ensures error.None? <==> forall k :: i <= k < |ms| ==> SnapshotEntryOk(ms, k)
    ensures error.Some? ==>
      error.value == InvalidPlaintext ||
      (error.value == UnknownColor && exists k :: i <= k < |ms| && ColorFromIndex(ms[k].color).None?)
    decreases |ms| - i
  {
    if i == |ms| then None
    else if !ms[i].nickname.valid then assert !SnapshotEntryOk(ms, i); Some(InvalidPlaintext)
    else if ColorFromIndex(ms[i].color).None? then assert !SnapshotEntryOk(ms, i); Some(UnknownColor)
    else if SnapshotDuplicate(ms, i) then assert !SnapshotEntryOk(ms, i); Some(InvalidPlaintext)
    else EntryError(ms, i + 1)
  }

  function SnapshotError(ms: seq<SnapshotMember>, own: MemberId): (error: Option<ChatError>)
    ensures error.None? <==> SnapshotOk(ms, own)
    ensures error.Some? ==>
      error.value == InvalidPlaintext ||
      (error.value == UnknownColor && exists k :: 0 <= k < |ms| && ColorFromIndex(ms[k].color).None?)
  {
    if ms == [] || !(exists i :: 0 <= i < |ms| && ms[i].id == own) then Some(InvalidPlaintext)
    else if |ms| > MAX_MEMBERS then Some(InvalidPlaintext)
    else if HostCount(ms) != 1 || exists i :: 0 <= i < |ms| && ms[i].isHost != (ms[i].id == HOST_ID)
    then Some(InvalidPlaintext)
    else EntryError(ms, 0)
  }

  function ViewOfSnapshot(m: SnapshotMember): MemberView {
    MemberView(m.id, m.nickname,
      match ColorFromIndex(m.color) case None => DEFAULT_COLOR case Some(c) => c, m.isHost, m.ed25519)
  }

  function WithoutId(views: seq<MemberView>, id: MemberId): seq<MemberView> {
    if views == [] then [] else
      WithoutId(views[..|views| - 1], id) +
      if views[|views| - 1].id == id then [] else [views[|views| - 1]]
  }

  // The handlers of the five signed broadcasts: validate, verify, apply.
  function HandleRoomEvent(s: Chat, m: Message): Result<Chat, ChatError>
    requires m.RoomEvent?
  {
    match m.body
    case Joined(id, nickname, ed25519) =>
      if !nickname.valid || id == HOST_ID || KnownIdentity(s.members, id, nickname, ed25519)
      then Err(InvalidPlaintext)
      else (match VerifyRoomEvent(s, m)
        case Err(error) => Err(error)
        case Ok(v) => Ok(v.(members := v.members + [MemberView(id, nickname, DEFAULT_COLOR, false, ed25519)])))
    case Left(id) =>
      (match VerifyRoomEvent(s, m)
        case Err(error) => Err(error)
        case Ok(v) => Ok(v.(members := WithoutId(v.members, id))))
    case Kicked(id) =>
      (match VerifyRoomEvent(s, m)
        case Err(error) => Err(error)
        case Ok(v) => Ok(v.(members := WithoutId(v.members, id))))
    case PolicyChanged(open) =>
      (match VerifyRoomEvent(s, m)
        case Err(error) => Err(error)
        case Ok(v) => Ok(v.(policyOpen := open)))
    case Snapshot(ms) =>
      if SnapshotError(ms, s.memberId).Some? then Err(SnapshotError(ms, s.memberId).value)
      else (match VerifyRoomEvent(s, m)
        case Err(error) => Err(error)
        case Ok(v) => Ok(v.(members := seq(|ms|, i requires 0 <= i < |ms| => ViewOfSnapshot(ms[i])))))
  }

  // ---- a participant reading its channel in order ---------------------------------

  datatype Fault = Fault(message: Message, error: ChatError)

  // A participant, the chat it opened once admitted, and what it refused so far: control
  // messages (epoch wraps and signed events) and relayed envelopes apart.
  datatype View = View(
    hostKey: PublicKey, ownKey: PublicKey, chat: Option<Chat>,
    refused: seq<Fault>, unread: seq<Fault>)

  function Receive(v: View, m: Message): View {
    if m.JoinAccepted? then
      View(v.hostKey, v.ownKey, Some(NewChat(v.hostKey, v.ownKey, m.id)), [], [])
    else if v.chat.None? then v
    else
      match m
      case EpochWrap(_, _, _, _) =>
        (match SetEpochFromWrap(v.chat.value, m)
          case Err(error) => v.(refused := v.refused + [Fault(m, error)])
          case Ok(s) => v.(chat := Some(s)))
      case RoomEvent(_, _, _, _) =>
        (match HandleRoomEvent(v.chat.value, m)
          case Err(error) => v.(refused := v.refused + [Fault(m, error)])
          case Ok(s) => v.(chat := Some(s)))
      case Relayed(kind, e) =>
        var (s, r) := ReceiveEnvelope(v.chat.value, kind, e);
        (match r
          case Err(error) => v.(chat := Some(s), unread := v.unread + [Fault(m, error)])
          case Ok(_) => v.(chat := Some(s)))
      case _ => v
  }

  // The participant behind connection `c` after `actions` were delivered in order.
  function ReceiveAll(c: ConnectionId, v: View, actions: seq<Action>): View
    decreases |actions|
  {
    if actions == [] then v else
      var before := ReceiveAll(c, v, actions[..|actions| - 1]);
      var last := actions[|actions| - 1];
      if last.SendTo? && last.connection == c then Receive(before, last.message) else before
  }
}
