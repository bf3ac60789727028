// The mirror on each member as the source has it (src/chat/session.rs): an object that changes
// its epoch, its member table and its replay state in place, as module Session says.
module ChatSessions {
  import opened Wrappers
  import opened RoomTypes
  import opened Replay
  import opened ChatCrypto
  import opened Session

  class ChatSession {
    const hostKey: PublicKey
    const ownKey: PublicKey
    const memberId: MemberId
    const tracker: ReplayTracker
    var epoch: Option<(nat, EpochKey)>
    var senderSequence: nat
    var members: seq<MemberView>
    var lastRoomSequence: Option<nat>
    var policyOpen: bool

    function State(): Chat
      reads this, tracker
    {
      Chat(hostKey, ownKey, memberId, epoch, senderSequence, members, tracker.last, lastRoomSequence, policyOpen)
    }

    constructor (hostKey: PublicKey, ownKey: PublicKey, memberId: MemberId)
      ensures State() == NewChat(hostKey, ownKey, memberId) && fresh(tracker)
    {
      this.hostKey := hostKey;
      this.ownKey := ownKey;
      this.memberId := memberId;
      tracker := new ReplayTracker();
      epoch := None;
      senderSequence := 0;
      members := [];
      lastRoomSequence := None;
      policyOpen := true;
    }

    // A wrap that is old or not for this member changes nothing.
    method SetEpoch(m: Message) returns (error: Option<ChatError>)
      requires m.EpochWrap?
      modifies this, tracker
      ensures match SetEpochFromWrap(old(State()), m)
        case Ok(s) => error == None && State() == s
        case Err(e) => error == Some(e) && State() == old(State())
    {
      if epoch.Some? && m.epoch <= epoch.value.0 { return Some(OldEpoch); }
      if m.recipient != memberId || m.recipientKey != ownKey { return Some(InvalidCiphertext); }
      Install(m.epoch, m.key);
      return None;
    }

    method Install(number: nat, key: EpochKey)
      modifies this, tracker
      ensures State() == InstallEpoch(old(State()), number, key)
    {
      if epoch.Some? && number <= epoch.value.0 { return; }
      epoch := Some((number, key));
      tracker.RetainEpoch(number);
    }

    method SealEnvelope(signer: PublicKey, kind: nat, plaintext: Plaintext)
      returns (sealed: Result<Envelope, ChatError>)
      modifies this
      ensures match SealNext(old(State()), signer, kind, plaintext)
        case Ok((s, e)) => sealed == Ok(e) && State() == s
        case Err(error) => sealed == Err(error) && State() == old(State())
    {
      if epoch.None? { return Err(NoEpochKey); }
      senderSequence := senderSequence + 1;
      var (number, key) := epoch.value;
      return Ok(Envelope(number, memberId, senderSequence,
        Seal(key, signer, Context(number, memberId, senderSequence, kind), plaintext)));
    }

    // The sequence is recorded only after the signature and the ciphertext were accepted.
    method OpenNext(kind: nat, e: Envelope) returns (opening: Result<Plaintext, ChatError>)
      modifies tracker
      ensures (State(), opening) == OpenEnvelope(old(State()), kind, e)
    {
      if epoch.None? { return Err(NoEpochKey); }
      var (number, key) := epoch.value;
      if e.epoch != number { return Err(OldEpoch); }
      var sender := PositionOfView(members, e.sender);
      if sender.None? { return Err(UnknownSender); }
      var last := LastAccepted(tracker.last, e.sender, number);
      if last.Some? && e.sequence <= last.value { return Err(ReplayRejected); }
      opening := Open(key, members[sender.value].ed25519, Context(number, e.sender, e.sequence, kind), e.sealed);
      if opening.Ok? { var isNew := tracker.Accept(e.sender, number, e.sequence); }
    }

    method ReceiveNext(kind: nat, e: Envelope) returns (reading: Result<Plaintext, ChatError>)
      modifies this, tracker
      ensures (State(), reading) == ReceiveEnvelope(old(State()), kind, e)
    {
      if kind == MSG_TIMEOUT_CHANGED && e.sender != HOST_ID { return Err(InvalidPlaintext); }
      if kind != MSG_CHAT && kind != MSG_COLOR && kind != MSG_TIMEOUT_CHANGED { return Err(InvalidPlaintext); }
      reading := OpenNext(kind, e);
      if reading.Err? { return; }
      var p := reading.value;
      if kind == MSG_CHAT {
        if !p.isText { return Err(InvalidPlaintext); }
      } else if kind == MSG_TIMEOUT_CHANGED {
        if TimeoutPayload(p).Err? { return Err(InvalidPlaintext); }
      } else {
        var color := ColorPayload(p);
        if color.Err? { return Err(color.error); }
        var position := PositionOfView(members, e.sender);
        if position.Some? { members := members[position.value := members[position.value].(color := color.value)]; }
      }
    }

    method Verify(m: Message) returns (error: Option<ChatError>)
      requires m.RoomEvent?
      modifies this
      ensures match VerifyRoomEvent(old(State()), m)
        case Ok(s) => error == None && State() == s
        case Err(e) => error == Some(e) && State() == old(State())
    {
      if m.signature != Signature(hostKey, m.sequence, m.epoch, m.body) { return Some(InvalidSignature); }
      if epoch.Some? && m.epoch != epoch.value.0 { return Some(OldEpoch); }
      if lastRoomSequence.Some? && m.sequence <= lastRoomSequence.value { return Some(ReplayRejected); }
      lastRoomSequence := Some(m.sequence);
      return None;
    }

    // Validate, verify, apply: an event that is refused changes nothing.
    method ApplyRoomEvent(m: Message) returns (error: Option<ChatError>)
      requires m.RoomEvent?
      modifies this
      ensures match HandleRoomEvent(old(State()), m)
        case Ok(s) => error == None && State() == s
        case Err(e) => error == Some(e) && State() == old(State())
    {
      hide SnapshotError;
      if m.body.Joined? &&
        (!m.body.nickname.valid || m.body.id == HOST_ID ||
          KnownIdentity(members, m.body.id, m.body.nickname, m.body.ed25519)) {
        return Some(InvalidPlaintext);
      }
      if m.body.Snapshot? && SnapshotError(m.body.members, memberId).Some? {
        return SnapshotError(m.body.members, memberId);
      }
      error := Verify(m);
      if error.Some? { return; }
      match m.body
      case Joined(id, nickname, ed25519) =>
        members := members + [MemberView(id, nickname, DEFAULT_COLOR, false, ed25519)];
      case Left(id) => Forget(id);
      case Kicked(id) => Forget(id);
      case PolicyChanged(open) => policyOpen := open;
      case Snapshot(listed) => Replace(listed);
    }

    method Forget(id: MemberId)
      modifies this
      ensures State() == old(State()).(members := WithoutId(old(members), id))
    {
      var kept: seq<MemberView> := [];
      var i := 0;
      while i < |members|
        invariant 0 <= i <= |members|
        invariant kept == WithoutId(members[..i], id)
      {
        assert members[..i + 1][..i] == members[..i];
        if members[i].id != id { kept := kept + [members[i]]; }
        i := i + 1;
      }
      assert members[..i] == members;
      members := kept;
    }

    method Replace(listed: seq<SnapshotMember>)
      modifies this
      ensures State() == old(State()).(members :=
        seq(|listed|, i requires 0 <= i < |listed| => ViewOfSnapshot(listed[i])))
    {
      var views: seq<MemberView> := [];
      var i := 0;
      while i < |listed|
        invariant 0 <= i <= |listed|
        invariant |views| == i && forall k :: 0 <= k < i ==> views[k] == ViewOfSnapshot(listed[k])
      {
        views := views + [ViewOfSnapshot(listed[i])];
        i := i + 1;
      }
      members := views;
    }
  }
}
