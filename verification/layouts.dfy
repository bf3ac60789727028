// The bytes that are signed, part by part in the order of the protocol (docs/protocol-v1.md, sections
// 16 and 17).
module Layouts {
  import opened Bytes
  import opened Transcripts
  import opened Handshake

  // The parts one after the other.
  function Flat(parts: seq<seq<byte>>): seq<byte> {
    if parts == [] then [] else parts[0] + Flat(parts[1..])
  }

  function Counted(data: seq<byte>): seq<byte> { ToBigEndian(|data|, 4) + data }

  lemma {:induction false} FieldsAreParts(fields: seq<Field>, parts: seq<seq<byte>>)
    requires |parts| == |fields| && forall i :: 0 <= i < |fields| ==> EncodeField(fields[i]) == parts[i]
    ensures EncodeFields(fields) == Flat(parts)
    decreases |fields|
  {
    hide EncodeField;
    if fields != [] { FieldsAreParts(fields[1..], parts[1..]); }
  }

  lemma {:induction false} HostHelloLayout(t: HostHello)
    ensures TextOf(OfHostHello(t)) == Flat([
      Counted(Ascii("VEILROOM-HOST-HELLO-V1")), ToBigEndian(t.version, 1), Counted(t.onionAddress),
      ToBigEndian(t.virtualPort, 2), t.session, t.hostEd25519, t.hostX25519, t.clientNonce, t.serverNonce, t.tokenHash,
      ToBigEndian(t.offeredVersion, 1), ToBigEndian(t.clientFeatures, 4)])
  {
    hide ToBigEndian, EncodeFields, Flat, Ascii;
    FieldsAreParts(t.Fields(), [
      Counted(Ascii("VEILROOM-HOST-HELLO-V1")), ToBigEndian(t.version, 1), Counted(t.onionAddress),
      ToBigEndian(t.virtualPort, 2), t.session, t.hostEd25519, t.hostX25519, t.clientNonce, t.serverNonce, t.tokenHash,
      ToBigEndian(t.offeredVersion, 1), ToBigEndian(t.clientFeatures, 4)]);
  }

  lemma {:induction false} JoinRequestLayout(t: JoinRequestText)
    ensures TextOf(OfJoinRequest(t)) == Flat([
      Counted(Ascii("VEILROOM-JOIN-REQUEST-V1")), ToBigEndian(t.version, 1), t.session, t.clientNonce, t.serverNonce,
      Counted(t.nickname), t.introductionHash, t.ed25519, t.x25519, Counted(t.onionAddress), t.tokenHash])
  {
    hide ToBigEndian, EncodeFields, Flat, Ascii;
    FieldsAreParts(t.Fields(), [
      Counted(Ascii("VEILROOM-JOIN-REQUEST-V1")), ToBigEndian(t.version, 1), t.session, t.clientNonce, t.serverNonce,
      Counted(t.nickname), t.introductionHash, t.ed25519, t.x25519, Counted(t.onionAddress), t.tokenHash]);
  }

  lemma {:induction false} RoomEventLayout(t: RoomEventText)
    ensures TextOf(OfRoomEvent(t)) == Flat([
      Counted(Ascii("VEILROOM-ROOM-EVENT-V1")), ToBigEndian(t.version, 1), t.session, ToBigEndian(t.sequence, 8),
      ToBigEndian(t.epoch, 8), ToBigEndian(t.eventType, 1), Counted(t.body)])
  {
    hide ToBigEndian, EncodeFields, Flat, Ascii;
    FieldsAreParts(t.Fields(), [
      Counted(Ascii("VEILROOM-ROOM-EVENT-V1")), ToBigEndian(t.version, 1), t.session, ToBigEndian(t.sequence, 8),
      ToBigEndian(t.epoch, 8), ToBigEndian(t.eventType, 1), Counted(t.body)]);
  }

  lemma {:induction false} ChatLayout(t: ChatText)
    ensures TextOf(OfChat(t)) == Flat([
      Counted(Ascii("VEILROOM-CHAT-MESSAGE-V1")), ToBigEndian(t.version, 1), t.session, ToBigEndian(t.epoch, 8),
      ToBigEndian(t.sender, 8), ToBigEndian(t.sequence, 8), ToBigEndian(t.messageType, 1), t.nonce,
        Counted(t.ciphertext)])
    ensures EncodeFields(t.Binding()) == Flat([
      Ascii("VEILROOM-CHAT-AAD-V1"), ToBigEndian(t.version, 1), t.session, ToBigEndian(t.epoch, 8),
      ToBigEndian(t.sender, 8), ToBigEndian(t.sequence, 8), ToBigEndian(t.messageType, 1)])
  {
    hide ToBigEndian, EncodeFields, Flat, Ascii;
    FieldsAreParts(t.Fields(), [
      Counted(Ascii("VEILROOM-CHAT-MESSAGE-V1")), ToBigEndian(t.version, 1), t.session, ToBigEndian(t.epoch, 8),
      ToBigEndian(t.sender, 8), ToBigEndian(t.sequence, 8), ToBigEndian(t.messageType, 1), t.nonce,
        Counted(t.ciphertext)]);
    FieldsAreParts(t.Binding(), [
      Ascii("VEILROOM-CHAT-AAD-V1"), ToBigEndian(t.version, 1), t.session, ToBigEndian(t.epoch, 8),
      ToBigEndian(t.sender, 8), ToBigEndian(t.sequence, 8), ToBigEndian(t.messageType, 1)]);
  }

  // ---- event bodies ------------------------------------------------------------------------------------

  function EntryParts(m: Listed): seq<seq<byte>> {
    [ToBigEndian(m.id, 8), Counted(m.nickname), ToBigEndian(m.color, 1), ToBigEndian(if m.isHost then 1 else 0, 1),
      m.ed25519]
  }

  function AllEntries(members: seq<Listed>): seq<byte> {
    if members == [] then [] else Flat(EntryParts(members[0])) + AllEntries(members[1..])
  }

  lemma {:induction false} ListLayout(members: seq<Listed>)
    ensures ListText(members) == AllEntries(members)
    decreases |members|
  {
    hide ToBigEndian, EncodeFields, Flat;
    if members != [] {
      FieldsAreParts(members[0].Fields(), EntryParts(members[0]));
      ListLayout(members[1..]);
    }
  }

  // The body of every kind of event, and the number of its kind.
  lemma {:induction false} BodyLayout(id: nat, nickname: seq<byte>, key: seq<byte>, open: bool, members: seq<Listed>)
    ensures MemberJoined(id, nickname, key).Text() == Flat([ToBigEndian(id, 8), Counted(nickname), key])
    ensures MemberLeft(id).Text() == MemberKicked(id).Text() == ToBigEndian(id, 8)
    ensures JoinPolicyChanged(open).Text() == ToBigEndian(if open then 1 else 0, 1)
    ensures MemberJoined(id, nickname, key).EventType() == 0x20 && MemberLeft(id).EventType() == 0x21
    ensures MemberKicked(id).EventType() == 0x22 && JoinPolicyChanged(open).EventType() == 0x23
    ensures MemberSnapshot(members).EventType() == 0x24
    ensures MemberSnapshot(members).Text() == ToBigEndian(|members|, 8) + AllEntries(members)
  {
    FieldsAreParts([Number(id, 8), Variable(nickname), Fixed(key)], [ToBigEndian(id, 8), Counted(nickname), key]);
    FieldsAreParts([Number(id, 8)], [ToBigEndian(id, 8)]);
    ListLayout(members);
    assert Flat([ToBigEndian(id, 8)]) == ToBigEndian(id, 8);
    OneByte(if open then 1 else 0);
  }

  lemma OneByte(v: byte)
    ensures ToBigEndian(v, 1) == [v]
  {
    assert ToBigEndian(v / 256, 0) == [];
  }

  // ---- what the two ends of an admission sign ------------------------------------------------------------

  // The host signs over the client's nonce, the hash of its token, and the version and features it
  // offered.
  lemma {:induction false} SignedHello(env: Env, onion: seq<byte>, port: nat, session: seq<byte>, ed25519: seq<byte>,
    x25519: seq<byte>, clientNonce: seq<byte>, serverNonce: seq<byte>, token: seq<byte>, offered: nat, features: nat)
    ensures TextOf(OfHostHello(HelloOf(env, onion, port, session, ed25519, x25519, clientNonce, serverNonce, token,
      offered,
      features))) == Flat([
      Counted(Ascii("VEILROOM-HOST-HELLO-V1")), ToBigEndian(1, 1), Counted(onion), ToBigEndian(port, 2), session,
        ed25519,
      x25519, clientNonce, serverNonce, env.hash(token), ToBigEndian(offered, 1), ToBigEndian(features, 4)])
  {
    hide TextOf, ToBigEndian, Flat, Ascii;
    HostHelloLayout(HelloOf(env, onion, port, session, ed25519, x25519, clientNonce, serverNonce, token, offered,
      features));
  }

  // The applicant signs over both nonces, its nickname, the hash of its introduction and its keys.
  lemma {:induction false} SignedForm(env: Env, f: JoinForm, session: seq<byte>, clientNonce: seq<byte>,
    serverNonce: seq<byte>, onion: seq<byte>, token: seq<byte>)
    ensures JoinText(env, f, session, clientNonce, serverNonce, onion, token) == Flat([
      Counted(Ascii("VEILROOM-JOIN-REQUEST-V1")), ToBigEndian(1, 1), session, clientNonce, serverNonce,
      Counted(env.utf8(f.nickname)), env.hash(env.utf8(if f.introduction.Some? then f.introduction.value else "")),
      f.ed25519, f.x25519, Counted(onion), env.hash(token)])
  {
    hide TextOf, ToBigEndian, Flat, Ascii;
    JoinRequestLayout(JoinRequestText(1, session, clientNonce, serverNonce, env.utf8(f.nickname),
      env.hash(env.utf8(IntroductionText(f))), f.ed25519, f.x25519, onion, env.hash(token)));
  }
}
