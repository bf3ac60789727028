// The values that travel through the room: members, requests, events, messages and actions
// (src/event.rs, src/room/action.rs, src/protocol/membership.rs, src/protocol/chat.rs).
//
// Cryptography is ideal. A signature names its signer and the fields of the transcript it
// covers (module Transcripts proves that the byte transcripts determine those fields), a
// wrapped key names the only participant that can unwrap it, and a sealed payload names the
// key it was sealed with.  There is one room, so the room session id that every transcript
// repeats is left out.
module RoomTypes {
  import opened Wrappers
  import opened Bytes

  type ConnectionId = nat
  type MemberId = nat
  type RequestId = nat
  type PublicKey = nat
  type Time = t: real | 0.0 <= t witness 0.0

  // The epoch keys a host generates, numbered in the order the generator returned them.
  datatype EpochKey = EpochKey(serial: nat)

  // A nickname and the verdict `validate_nickname` gives on it.
  datatype Nickname = Nickname(text: string, valid: bool)

  datatype Color = Red | Green | Yellow | Blue | Magenta | Cyan | White {
    function Index(): nat {
      match this
      case Red => 0
      case Green => 1
      case Yellow => 2
      case Blue => 3
      case Magenta => 4
      case Cyan => 5
      case White => 6
    }
  }

  const DEFAULT_COLOR := White

  function ColorFromIndex(index: nat): Option<Color> {
    match index
    case 0 => Some(Red)
    case 1 => Some(Green)
    case 2 => Some(Yellow)
    case 3 => Some(Blue)
    case 4 => Some(Magenta)
    case 5 => Some(Cyan)
    case 6 => Some(White)
    case _ => None
  }

  const MAX_MEMBERS: nat := 16
  const MAX_TIMEOUT_SECONDS: nat := 3600
  const HOST_ID: MemberId := 0

  // ---- membership ------------------------------------------------------

  datatype Member = Member(
    id: MemberId, connection: ConnectionId, nickname: Nickname, color: Color, isHost: bool,
    ed25519: PublicKey, x25519: PublicKey, joinedEpoch: nat)

  datatype SnapshotMember = SnapshotMember(
    id: MemberId, nickname: Nickname, color: nat, isHost: bool, ed25519: PublicKey)

  datatype Application = Application(
    nickname: Nickname, introduction: Option<string>, ed25519: PublicKey, x25519: PublicKey)

  datatype JoinRequest = JoinRequest(id: RequestId, connection: ConnectionId, application: Application)

  datatype TimeoutRequest = TimeoutRequest(
    id: RequestId, connection: ConnectionId, member: MemberId, nickname: Nickname, seconds: nat)

  // ---- messages --------------------------------------------------------

  datatype EventBody =
    | Joined(id: MemberId, nickname: Nickname, ed25519: PublicKey)
    | Left(id: MemberId)
    | Kicked(id: MemberId)
    | PolicyChanged(open: bool)
    | Snapshot(members: seq<SnapshotMember>)

  datatype Signature = Signature(signer: PublicKey, sequence: nat, epoch: nat, body: EventBody)

  const MSG_CHAT: nat := 0x40
  const MSG_COLOR: nat := 0x41
  const MSG_TIMEOUT_REQUEST: nat := 0x42
  const MSG_TIMEOUT_CHANGED: nat := 0x43

  // What the chat transcript and the AEAD additional data bind.
  datatype Context = Context(epoch: nat, sender: MemberId, sequence: nat, kind: nat)

  // The bytes an envelope carries, and whether they are UTF-8 that `validate_chat_text` accepts.
  datatype Plaintext = Plaintext(data: seq<byte>, isText: bool)

  // A ciphertext and the sender's signature over it.
  datatype Sealed = Sealed(
    signer: PublicKey, signed: Context, key: EpochKey, bound: Context, plaintext: Plaintext)

  datatype Envelope = Envelope(epoch: nat, sender: MemberId, sequence: nat, sealed: Sealed)

  datatype Message =
    | JoinAccepted(id: MemberId)
    | JoinRejected
    | EpochWrap(epoch: nat, key: EpochKey, recipient: MemberId, recipientKey: PublicKey)
    | RoomEvent(sequence: nat, epoch: nat, body: EventBody, signature: Signature)
    | Relayed(kind: nat, envelope: Envelope)
    | ErrorMessage
    | Shutdown

  // ---- actions ---------------------------------------------------------

  datatype Notice =
    | JoinRequestPending(id: RequestId, connection: ConnectionId, nickname: Nickname)
    | JoinRequestWithdrawn(id: RequestId)
    | TimeoutRequestPending(id: RequestId, member: MemberId, nickname: Nickname, seconds: nat)
    | TimeoutRequestAccepted(id: RequestId, seconds: nat)
    | TimeoutRequestRejected(id: RequestId)
    | TimeoutRebroadcast(seconds: nat)
    | MemberJoined(id: MemberId, nickname: Nickname)
    | MemberLeft(id: MemberId, nickname: Nickname)
    | MemberKicked(id: MemberId, nickname: Nickname)
    | JoinPolicyNotice(open: bool)
    | InvitationRotated
    | RequestsSnapshot(joins: seq<JoinRequest>, timeouts: seq<TimeoutRequest>)
    | ListSnapshot(listed: seq<Member>)
    | WhoisResult(found: Member)
    | RoomClosedNotice
    | ErrorNotice

  // `CloseAll` and `ShutdownAll` stand for one CloseConnection (and Shutdown) per listed
  // connection: the source walks a hash map there, so the order is unspecified.
  datatype Action =
    | SendTo(connection: ConnectionId, message: Message)
    | CloseConnection(connection: ConnectionId)
    | CloseAll(connections: set<ConnectionId>)
    | ShutdownAll(connections: set<ConnectionId>)
    | Notify(notice: Notice)

  // ---- events ----------------------------------------------------------

  datatype MemberRef = ById(id: MemberId) | ByNickname(nickname: Nickname)

  datatype HostCommand =
    | Kick(target: MemberRef) | NewId | ReqOn | ReqOff | Requests
    | Accept(request: RequestId) | Reject(request: RequestId)

  datatype MemberCommand = Leave | SetColor(color: Color) | List | Whois(nickname: Nickname)

  datatype Event =
    | ClientConnected(connection: ConnectionId)
    | PasswordVerified(connection: ConnectionId)
    | JoinRequested(connection: ConnectionId, application: Application)
    | HostAccepted(request: RequestId)
    | HostRejected(request: RequestId)
    | ChatReceived(connection: ConnectionId, kind: nat, envelope: Envelope)
    | MemberDeparted(member: MemberId)
    | ConnectionLost(connection: ConnectionId)
    | OnHostCommand(hostCommand: HostCommand)
    | OnMemberCommand(connection: ConnectionId, memberCommand: MemberCommand)
    | EpochAck(connection: ConnectionId, epoch: nat)
    | CloseRequested
    | TimeoutExpired(connection: ConnectionId, acknowledgement: bool)
    | EpochMaintenance
    | TorStopped

  // ---- errors ----------------------------------------------------------

  datatype ChatError =
    | NoEpochKey | OldEpoch | UnknownSender | ReplayRejected | InvalidSignature
    | InvalidCiphertext | InvalidPlaintext | UnknownColor | UnexpectedMessage

  datatype RoomError =
    | QueueFull | UnknownRequest | UnknownMember | UnknownConnection | HostCannotLeave
    | CannotKickHost | EmptyMemberRef | PolicyLocked | NotAMember | RoomClosed
    | EpochTransitionInProgress | WrongEpoch(found: nat, current: nat)
    | Replayed(sender: MemberId, sequence: nat) | ChatRefused(error: ChatError) | BadColor(index: nat)
    | BadNickname
}
