// Canonical signature transcripts (src/crypto/transcript.rs, src/crypto/chat.rs).
module Transcripts {
  import opened Bytes

  // ---- fields ------------------------------------------------------------------------

  // A big-endian integer of fixed width, a byte string of protocol-fixed size, or a byte string
  // behind its 32-bit length.
  datatype Field = Number(value: nat, width: nat) | Fixed(data: seq<byte>) | Variable(data: seq<byte>)

  // The length is a u32: longer strings lose its high digits.
  function EncodeField(f: Field): seq<byte> {
    match f
    case Number(value, width) => ToBigEndian(value, width)
    case Fixed(data) => data
    case Variable(data) => ToBigEndian(|data|, 4) + data
  }

  function EncodeFields(fields: seq<Field>): seq<byte> {
    if fields == [] then [] else EncodeField(fields[0]) + EncodeFields(fields[1..])
  }

  // Two fields a decoder that knows the schema cannot confuse.
  predicate Alike(f: Field, g: Field) {
    match f
    case Number(value, width) => g.Number? && g.width == width && value < Pow256(width) && g.value < Pow256(width)
    case Fixed(data) => g.Fixed? && |g.data| == |data|
    case Variable(data) => g.Variable? && (|g.data| == |data| || (|data| < Pow256(4) && |g.data| < Pow256(4)))
  }

  predicate AllAlike(fs: seq<Field>, gs: seq<Field>) {
    |fs| == |gs| && forall i :: 0 <= i < |fs| ==> Alike(fs[i], gs[i])
  }

  lemma SplitEqual(a: seq<byte>, b: seq<byte>, x: seq<byte>, y: seq<byte>)
    requires |a| == |b| && a + x == b + y
    ensures a == b && x == y
  {
    assert a == (a + x)[..|a|] == (b + y)[..|b|] == b;
    assert x == (a + x)[|a|..] == (b + y)[|b|..] == y;
  }

  lemma NumberIsPrefixFree(value: nat, other: nat, width: nat, x: seq<byte>, y: seq<byte>)
    requires value < Pow256(width) && other < Pow256(width)
    requires ToBigEndian(value, width) + x == ToBigEndian(other, width) + y
    ensures value == other && x == y
  {
    hide ToBigEndian;
    SplitEqual(ToBigEndian(value, width), ToBigEndian(other, width), x, y);
    FromToBigEndian(value, width);
    FromToBigEndian(other, width);
  }

  lemma FieldIsPrefixFree(f: Field, g: Field, x: seq<byte>, y: seq<byte>)
    requires Alike(f, g) && EncodeField(f) + x == EncodeField(g) + y
    ensures f == g && x == y
  {
    hide ToBigEndian, Pow256;
    match f
    case Number(value, width) => NumberIsPrefixFree(value, g.value, width, x, y);
    case Fixed(data) => SplitEqual(data, g.data, x, y);
    case Variable(data) =>
      var n := ToBigEndian(|data|, 4);
      var m := ToBigEndian(|g.data|, 4);
      assert n + (data + x) == EncodeField(f) + x == EncodeField(g) + y == m + (g.data + y);
      if |data| == |g.data| { SplitEqual(n, m, data + x, g.data + y); }
      else { NumberIsPrefixFree(|data|, |g.data|, 4, data + x, g.data + y); }
      SplitEqual(data, g.data, x, y);
  }

  // Field lists of one schema are encoded without ambiguity, whatever follows them.
  lemma {:induction false} FieldsArePrefixFree(fs: seq<Field>, gs: seq<Field>, x: seq<byte>, y: seq<byte>)
    requires AllAlike(fs, gs) && EncodeFields(fs) + x == EncodeFields(gs) + y
    ensures fs == gs && x == y
    decreases |fs|
  {
    hide Alike, EncodeField;
    if fs == [] { assert EncodeFields(fs) + x == x && EncodeFields(gs) + y == y; }
    else {
      assert EncodeFields(fs) + x == EncodeField(fs[0]) + (EncodeFields(fs[1..]) + x);
      assert EncodeFields(gs) + y == EncodeField(gs[0]) + (EncodeFields(gs[1..]) + y);
      FieldIsPrefixFree(fs[0], gs[0], EncodeFields(fs[1..]) + x, EncodeFields(gs[1..]) + y);
      FieldsArePrefixFree(fs[1..], gs[1..], x, y);
      assert fs == [fs[0]] + fs[1..] && gs == [gs[0]] + gs[1..];
    }
  }

  // A single variable field needs no bound: the total length gives its own.
  lemma {:induction false} OneVariableSize(fs: seq<Field>, gs: seq<Field>, k: nat)
    requires |fs| == |gs| && k < |fs| && fs[k].Variable? && gs[k].Variable?
    requires forall i :: 0 <= i < |fs| && i != k ==> Alike(fs[i], gs[i]) && !fs[i].Variable?
    ensures |EncodeFields(fs)| - |fs[k].data| == |EncodeFields(gs)| - |gs[k].data|
    decreases |fs|
  {
    hide ToBigEndian, Pow256;
    if k == 0 { SameSizes(fs[1..], gs[1..]); }
    else { OneVariableSize(fs[1..], gs[1..], k - 1); }
  }

  lemma {:induction false} SameSizes(fs: seq<Field>, gs: seq<Field>)
    requires |fs| == |gs|
    requires forall i :: 0 <= i < |fs| ==> Alike(fs[i], gs[i]) && !fs[i].Variable?
    ensures |EncodeFields(fs)| == |EncodeFields(gs)|
    decreases |fs|
  {
    hide ToBigEndian, Pow256;
    if fs != [] { SameSizes(fs[1..], gs[1..]); }
  }

  lemma {:induction false} OneVariableIsInjective(fs: seq<Field>, gs: seq<Field>, k: nat)
    requires |fs| == |gs| && k < |fs| && fs[k].Variable? && gs[k].Variable?
    requires forall i :: 0 <= i < |fs| && i != k ==> Alike(fs[i], gs[i]) && !fs[i].Variable?
    requires EncodeFields(fs) == EncodeFields(gs)
    ensures fs == gs
  {
    hide EncodeFields, Pow256;
    OneVariableSize(fs, gs, k);
    assert AllAlike(fs, gs);
    FieldsArePrefixFree(fs, gs, [], []);
  }

  // ---- the builder ------------------------------------------------------------------------

  class TranscriptBuilder {
    var buf: seq<byte>

    constructor ()
      ensures buf == []
    {
      buf := [];
    }

    method AddNumber(value: nat, width: nat)
      modifies this
      ensures buf == old(buf) + EncodeField(Number(value, width))
    {
      buf := buf + ToBigEndian(value, width);
    }

    method AddBytes(data: seq<byte>)
      modifies this
      ensures buf == old(buf) + EncodeField(Variable(data))
    {
      buf := buf + ToBigEndian(|data|, 4);
      buf := buf + data;
      assert buf == old(buf) + (ToBigEndian(|data|, 4) + data);
    }

    method AddFixed(data: seq<byte>)
      modifies this
      ensures buf == old(buf) + EncodeField(Fixed(data))
    {
      buf := buf + data;
    }

    // The fields of a transcript, in order.
    method AddAll(fields: seq<Field>)
      modifies this
      ensures buf == old(buf) + EncodeFields(fields)
    {
      var i := 0;
      assert fields[0..] == fields;
      while i < |fields|
        invariant 0 <= i <= |fields|
        invariant buf + EncodeFields(fields[i..]) == old(buf) + EncodeFields(fields)
      {
        ghost var was := buf;
        assert fields[i..][0] == fields[i] && fields[i..][1..] == fields[i + 1..];
        match fields[i] {
          case Number(value, width) => AddNumber(value, width);
          case Fixed(data) => AddFixed(data);
          case Variable(data) => AddBytes(data);
        }
        assert was + EncodeFields(fields[i..]) == was + EncodeField(fields[i]) + EncodeFields(fields[i + 1..]);
        i := i + 1;
      }
    }
  }

  // ---- labels --------------------------------------------------------------------------------

  const HOST_HELLO_LABEL := "VEILROOM-HOST-HELLO-V1"
  const JOIN_REQUEST_LABEL := "VEILROOM-JOIN-REQUEST-V1"
  const ROOM_EVENT_LABEL := "VEILROOM-ROOM-EVENT-V1"
  const CHAT_MESSAGE_LABEL := "VEILROOM-CHAT-MESSAGE-V1"
  const CHAT_AAD_LABEL := "VEILROOM-CHAT-AAD-V1"

  function Ascii(s: string): (data: seq<byte>)
    ensures |data| == |s|
    ensures forall i :: 0 <= i < |s| ==> data[i] == (s[i] as int) % 256
  {
    seq(|s|, i requires 0 <= i < |s| => (s[i] as int) % 256)
  }

  // Every transcript starts with its domain label, and the tenth letters of the labels differ.
  lemma {:induction false} LabelByte(name: string, fields: seq<Field>)
    requires 9 < |name| && fields != [] && fields[0] == Variable(Ascii(name))
    ensures |EncodeFields(fields)| > 13 && EncodeFields(fields)[13] == (name[9] as int) % 256
  {
    hide ToBigEndian, Ascii, Pow256;
    var first := EncodeField(fields[0]);
    assert first[4 + 9] == Ascii(name)[9];
    assert EncodeFields(fields) == first + EncodeFields(fields[1..]);
  }

  // ---- transcripts -----------------------------------------------------------------------------

  const KEY_LEN: nat := 32
  const NONCE_LEN: nat := 16
  const CHAT_NONCE_LEN: nat := 24

  datatype HostHello = HostHello(
    version: nat, onionAddress: seq<byte>, virtualPort: nat, session: seq<byte>, hostEd25519: seq<byte>,
    hostX25519: seq<byte>, clientNonce: seq<byte>, serverNonce: seq<byte>, tokenHash: seq<byte>,
    offeredVersion: nat, clientFeatures: nat)
  {
    // The widths that the source's types fix.
    predicate Sized() {
      && version < Pow256(1) && virtualPort < Pow256(2) && |session| == KEY_LEN && |hostEd25519| == KEY_LEN
      && |hostX25519| == KEY_LEN && |clientNonce| == NONCE_LEN && |serverNonce| == NONCE_LEN
      && |tokenHash| == KEY_LEN && offeredVersion < Pow256(1) && clientFeatures < Pow256(4)
    }
    function Fields(): seq<Field> {
      [Variable(Ascii(HOST_HELLO_LABEL)), Number(version, 1), Variable(onionAddress), Number(virtualPort, 2),
       Fixed(session), Fixed(hostEd25519), Fixed(hostX25519), Fixed(clientNonce), Fixed(serverNonce),
       Fixed(tokenHash), Number(offeredVersion, 1), Number(clientFeatures, 4)]
    }
  }

  datatype JoinRequestText = JoinRequestText(
    version: nat, session: seq<byte>, clientNonce: seq<byte>, serverNonce: seq<byte>, nickname: seq<byte>,
    introductionHash: seq<byte>, ed25519: seq<byte>, x25519: seq<byte>, onionAddress: seq<byte>,
    tokenHash: seq<byte>)
  {
    predicate Sized() {
      && version < Pow256(1) && |session| == KEY_LEN && |clientNonce| == NONCE_LEN && |serverNonce| == NONCE_LEN
      && |introductionHash| == KEY_LEN && |ed25519| == KEY_LEN && |x25519| == KEY_LEN && |tokenHash| == KEY_LEN
      && |nickname| < Pow256(4) && |onionAddress| < Pow256(4)
    }
    function Fields(): seq<Field> {
      [Variable(Ascii(JOIN_REQUEST_LABEL)), Number(version, 1), Fixed(session), Fixed(clientNonce),
       Fixed(serverNonce), Variable(nickname), Fixed(introductionHash), Fixed(ed25519), Fixed(x25519),
       Variable(onionAddress), Fixed(tokenHash)]
    }
  }

  datatype RoomEventText = RoomEventText(
    version: nat, session: seq<byte>, sequence: nat, epoch: nat, eventType: nat, body: seq<byte>)
  {
    predicate Sized() {
      && version < Pow256(1) && |session| == KEY_LEN && sequence < Pow256(8) && epoch < Pow256(8)
      && eventType < Pow256(1)
    }
    function Fields(): seq<Field> {
      [Variable(Ascii(ROOM_EVENT_LABEL)), Number(version, 1), Fixed(session), Number(sequence, 8),
       Number(epoch, 8), Number(eventType, 1), Variable(body)]
    }
  }

  datatype ChatText = ChatText(
    version: nat, session: seq<byte>, epoch: nat, sender: nat, sequence: nat, messageType: nat,
    nonce: seq<byte>, ciphertext: seq<byte>)
  {
    predicate Sized() {
      && version < Pow256(1) && |session| == KEY_LEN && epoch < Pow256(8) && sender < Pow256(8)
      && sequence < Pow256(8) && messageType < Pow256(1) && |nonce| == CHAT_NONCE_LEN
    }
    function Fields(): seq<Field> {
      [Variable(Ascii(CHAT_MESSAGE_LABEL)), Number(version, 1), Fixed(session), Number(epoch, 8),
       Number(sender, 8), Number(sequence, 8), Number(messageType, 1), Fixed(nonce), Variable(ciphertext)]
    }
    // The additional data of the ciphertext: the same binding, without nonce and ciphertext.
    function Binding(): seq<Field> {
      [Fixed(Ascii(CHAT_AAD_LABEL)), Number(version, 1), Fixed(session), Number(epoch, 8),
       Number(sender, 8), Number(sequence, 8), Number(messageType, 1)]
    }
  }

  datatype Transcript =
    | OfHostHello(hello: HostHello) | OfJoinRequest(request: JoinRequestText)
    | OfRoomEvent(event: RoomEventText) | OfChat(chat: ChatText)
  {
    predicate Sized() {
      match this
      case OfHostHello(t) => t.Sized()
      case OfJoinRequest(t) => t.Sized()
      case OfRoomEvent(t) => t.Sized()
      case OfChat(t) => t.Sized()
    }
    function Label(): string {
      match this
      case OfHostHello(_) => HOST_HELLO_LABEL
      case OfJoinRequest(_) => JOIN_REQUEST_LABEL
      case OfRoomEvent(_) => ROOM_EVENT_LABEL
      case OfChat(_) => CHAT_MESSAGE_LABEL
    }
    function Fields(): (fields: seq<Field>)
      ensures fields != [] && fields[0] == Variable(Ascii(Label()))
    {
      match this
      case OfHostHello(t) => t.Fields()
      case OfJoinRequest(t) => t.Fields()
      case OfRoomEvent(t) => t.Fields()
      case OfChat(t) => t.Fields()
    }
  }

  function TextOf(t: Transcript): seq<byte> { EncodeFields(t.Fields()) }

  lemma HostHelloDetermined(a: HostHello, b: HostHello)
    requires a.Sized() && b.Sized() && EncodeFields(a.Fields()) == EncodeFields(b.Fields())
    ensures a == b
  {
    hide EncodeFields, Pow256, Ascii;
    var fs := a.Fields();
    var gs := b.Fields();
    assert fs[0] == gs[0];
    HeadIsAlike(fs, gs);
    RestOneVariable(fs, gs, 2);
    assert forall i :: 0 <= i < 12 ==> fs[i] == gs[i];
  }

  // Transcripts of one kind share their label, which is then no second variable.
  lemma HeadIsAlike(fs: seq<Field>, gs: seq<Field>)
    requires fs != [] && gs != [] && fs[0] == gs[0] && EncodeFields(fs) == EncodeFields(gs)
    ensures EncodeFields(fs[1..]) == EncodeFields(gs[1..])
  {
    hide EncodeField;
    SplitEqual(EncodeField(fs[0]), EncodeField(gs[0]), EncodeFields(fs[1..]), EncodeFields(gs[1..]));
  }

  lemma RestOneVariable(fs: seq<Field>, gs: seq<Field>, k: nat)
    requires |fs| == |gs| && 1 <= k < |fs| && fs[0] == gs[0] && fs[k].Variable? && gs[k].Variable?
    requires forall i :: 1 <= i < |fs| && i != k ==> Alike(fs[i], gs[i]) && !fs[i].Variable?
    requires EncodeFields(fs[1..]) == EncodeFields(gs[1..])
    ensures fs == gs
  {
    hide EncodeFields, Pow256;
    OneVariableIsInjective(fs[1..], gs[1..], k - 1);
    assert fs == [fs[0]] + fs[1..] && gs == [gs[0]] + gs[1..];
  }

  lemma JoinRequestDetermined(a: JoinRequestText, b: JoinRequestText)
    requires a.Sized() && b.Sized() && EncodeFields(a.Fields()) == EncodeFields(b.Fields())
    ensures a == b
  {
    hide EncodeFields, Pow256, Ascii;
    var fs := a.Fields();
    var gs := b.Fields();
    assert fs[0] == gs[0];
    FieldsArePrefixFree(fs, gs, [], []);
    assert forall i :: 0 <= i < 11 ==> fs[i] == gs[i];
  }

  lemma RoomEventDetermined(a: RoomEventText, b: RoomEventText)
    requires a.Sized() && b.Sized() && EncodeFields(a.Fields()) == EncodeFields(b.Fields())
    ensures a == b
  {
    hide EncodeFields, Pow256, Ascii;
    var fs := a.Fields();
    var gs := b.Fields();
    assert fs[0] == gs[0];
    HeadIsAlike(fs, gs);
    RestOneVariable(fs, gs, 6);
    assert forall i :: 0 <= i < 7 ==> fs[i] == gs[i];
  }

  lemma ChatDetermined(a: ChatText, b: ChatText)
    requires a.Sized() && b.Sized() && EncodeFields(a.Fields()) == EncodeFields(b.Fields())
    ensures a == b
  {
    hide EncodeFields, Pow256, Ascii;
    var fs := a.Fields();
    var gs := b.Fields();
    assert fs[0] == gs[0];
    HeadIsAlike(fs, gs);
    RestOneVariable(fs, gs, 8);
    assert forall i :: 0 <= i < 9 ==> fs[i] == gs[i];
  }

  // A transcript determines its kind and every one of its inputs: no signature over one message
  // is a signature over another. Only the two variable fields of a join request need a bound.
  lemma {:induction false} TranscriptsAreInjective(a: Transcript, b: Transcript)
    requires a.Sized() && b.Sized() && TextOf(a) == TextOf(b)
    ensures a == b
  {
    hide EncodeFields, Ascii, Pow256;
    LabelByte(a.Label(), a.Fields());
    LabelByte(b.Label(), b.Fields());
    match (a, b)
    case (OfHostHello(t), OfHostHello(u)) => HostHelloDetermined(t, u);
    case (OfJoinRequest(t), OfJoinRequest(u)) => JoinRequestDetermined(t, u);
    case (OfRoomEvent(t), OfRoomEvent(u)) => RoomEventDetermined(t, u);
    case (OfChat(t), OfChat(u)) => ChatDetermined(t, u);
    case (_, _) => assert false;
  }

  // The additional data of a ciphertext determines what it is bound to.
  lemma {:induction false} BindingIsInjective(a: ChatText, b: ChatText)
    requires a.Sized() && b.Sized() && EncodeFields(a.Binding()) == EncodeFields(b.Binding())
    ensures a == b.(nonce := a.nonce, ciphertext := a.ciphertext)
  {
    hide EncodeFields, Pow256, Ascii;
    var fs := a.Binding();
    var gs := b.Binding();
    FieldsArePrefixFree(fs, gs, [], []);
    assert forall i :: 0 <= i < 7 ==> fs[i] == gs[i];
  }

  // ---- event bodies ---------------------------------------------------------------------------------

  datatype Listed = Listed(id: nat, nickname: seq<byte>, color: nat, isHost: bool, ed25519: seq<byte>)
  {
    predicate Sized() {
      id < Pow256(8) && |nickname| < Pow256(4) && color < Pow256(1) && |ed25519| == KEY_LEN
    }
    function Fields(): seq<Field> {
      [Number(id, 8), Variable(nickname), Number(color, 1), Number(if isHost then 1 else 0, 1), Fixed(ed25519)]
    }
  }

  datatype Body =
    | MemberJoined(id: nat, nickname: seq<byte>, ed25519: seq<byte>)
    | MemberLeft(id: nat)
    | MemberKicked(id: nat)
    | JoinPolicyChanged(open: bool)
    | MemberSnapshot(members: seq<Listed>)
  {
    predicate Sized() {
      match this
      case MemberJoined(id, nickname, ed25519) => id < Pow256(8) && |ed25519| == KEY_LEN
      case MemberLeft(id) => id < Pow256(8)
      case MemberKicked(id) => id < Pow256(8)
      case JoinPolicyChanged(_) => true
      case MemberSnapshot(members) => |members| < Pow256(8) && forall i :: 0 <= i < |members| ==> members[i].Sized()
    }
    function EventType(): nat {
      match this
      case MemberJoined(_, _, _) => 0x20
      case MemberLeft(_) => 0x21
      case MemberKicked(_) => 0x22
      case JoinPolicyChanged(_) => 0x23
      case MemberSnapshot(_) => 0x24
    }
    function Text(): seq<byte> {
      match this
      case MemberJoined(id, nickname, ed25519) => EncodeFields([Number(id, 8), Variable(nickname), Fixed(ed25519)])
      case MemberLeft(id) => EncodeFields([Number(id, 8)])
      case MemberKicked(id) => EncodeFields([Number(id, 8)])
      case JoinPolicyChanged(open) => [if open then 1 else 0]
      case MemberSnapshot(members) => ToBigEndian(|members|, 8) + ListText(members)
    }
  }

  function ListText(members: seq<Listed>): seq<byte> {
    if members == [] then [] else EncodeFields(members[0].Fields()) + ListText(members[1..])
  }

  lemma ListedIsPrefixFree(a: Listed, b: Listed, x: seq<byte>, y: seq<byte>)
    requires a.Sized() && b.Sized() && EncodeFields(a.Fields()) + x == EncodeFields(b.Fields()) + y
    ensures a == b && x == y
  {
    hide EncodeFields;
    var fs := a.Fields();
    var gs := b.Fields();
    assert Pow256(1) == 256;
    FieldsArePrefixFree(fs, gs, x, y);
    assert forall i :: 0 <= i < 5 ==> fs[i] == gs[i];
  }

  lemma {:induction false} ListTextIsInjective(a: seq<Listed>, b: seq<Listed>)
    requires |a| == |b| && ListText(a) == ListText(b)
    requires forall i :: 0 <= i < |a| ==> a[i].Sized() && b[i].Sized()
    ensures a == b
    decreases |a|
  {
    hide EncodeFields, Pow256, ToBigEndian;
    if a != [] {
      ListedIsPrefixFree(a[0], b[0], ListText(a[1..]), ListText(b[1..]));
      ListTextIsInjective(a[1..], b[1..]);
      assert a == [a[0]] + a[1..] && b == [b[0]] + b[1..];
    }
  }

  // A snapshot body determines the member list, of any length.
  lemma {:induction false} SnapshotIsInjective(a: seq<Listed>, b: seq<Listed>)
    requires MemberSnapshot(a).Sized() && MemberSnapshot(b).Sized()
    requires MemberSnapshot(a).Text() == MemberSnapshot(b).Text()
    ensures a == b
  {
    hide ListText, ToBigEndian, Pow256;
    NumberIsPrefixFree(|a|, |b|, 8, ListText(a), ListText(b));
    ListTextIsInjective(a, b);
  }

  lemma JoinedIsInjective(a: Body, b: Body)
    requires a.MemberJoined? && b.MemberJoined? && a.Sized() && b.Sized() && a.Text() == b.Text()
    ensures a == b
  {
    hide EncodeFields, Pow256;
    var fs := [Number(a.id, 8), Variable(a.nickname), Fixed(a.ed25519)];
    var gs := [Number(b.id, 8), Variable(b.nickname), Fixed(b.ed25519)];
    OneVariableIsInjective(fs, gs, 1);
    assert fs[0] == gs[0] && fs[1] == gs[1] && fs[2] == gs[2];
  }

  lemma GoneIsInjective(a: Body, b: Body)
    requires (a.MemberLeft? && b.MemberLeft?) || (a.MemberKicked? && b.MemberKicked?)
    requires a.Sized() && b.Sized() && a.Text() == b.Text()
    ensures a == b
  {
    hide EncodeFields, Pow256;
    var fs := [Number(a.id, 8)];
    var gs := [Number(b.id, 8)];
    FieldsArePrefixFree(fs, gs, [], []);
    assert fs[0] == gs[0];
  }

  // What the host signs for an event determines the event: its sequence, its epoch, its kind
  // and its whole body.
  lemma {:induction false} EventIsDetermined(version: nat, session: seq<byte>, sequence: nat, epoch: nat, a: Body,
    version': nat, session': seq<byte>, sequence': nat, epoch': nat, b: Body)
    requires a.Sized() && b.Sized()
    requires var t := RoomEventText(version, session, sequence, epoch, a.EventType(), a.Text());
      var u := RoomEventText(version', session', sequence', epoch', b.EventType(), b.Text());
      t.Sized() && u.Sized() && TextOf(OfRoomEvent(t)) == TextOf(OfRoomEvent(u))
    ensures version == version' && session == session' && sequence == sequence' && epoch == epoch' && a == b
  {
    hide Pow256, ToBigEndian, EncodeFields, ListText;
    TranscriptsAreInjective(OfRoomEvent(RoomEventText(version, session, sequence, epoch, a.EventType(), a.Text())),
      OfRoomEvent(RoomEventText(version', session', sequence', epoch', b.EventType(), b.Text())));
    match a
    case MemberJoined(_, _, _) => JoinedIsInjective(a, b);
    case MemberLeft(_) => GoneIsInjective(a, b);
    case MemberKicked(_) => GoneIsInjective(a, b);
    case JoinPolicyChanged(_) => assert a.Text()[0] == b.Text()[0];
    case MemberSnapshot(members) => SnapshotIsInjective(members, b.members);
  }

  // ---- the source's builders -------------------------------------------------------------------------

  method BuildTranscript(t: Transcript) returns (text: seq<byte>)
    ensures text == TextOf(t)
  {
    var builder := new TranscriptBuilder();
    builder.AddAll(t.Fields());
    assert [] + EncodeFields(t.Fields()) == EncodeFields(t.Fields());
    return builder.buf;
  }

  lemma NextListed(prefix: seq<byte>, members: seq<Listed>, i: nat)
    requires i < |members|
    ensures prefix + ListText(members[i..]) == prefix + EncodeFields(members[i].Fields()) + ListText(members[i + 1..])
  {
    hide EncodeFields;
    assert members[i..][0] == members[i] && members[i..][1..] == members[i + 1..];
  }

  method BuildSnapshotBody(members: seq<Listed>) returns (text: seq<byte>)
    ensures text == MemberSnapshot(members).Text()
  {
    hide EncodeFields, Pow256, ToBigEndian, ListText;
    var builder := new TranscriptBuilder();
    builder.AddNumber(|members|, 8);
    var i := 0;
    assert members[0..] == members;
    while i < |members|
      invariant 0 <= i <= |members|
      invariant builder.buf + ListText(members[i..]) == ToBigEndian(|members|, 8) + ListText(members)
    {
      NextListed(builder.buf, members, i);
      builder.AddAll(members[i].Fields());
      i := i + 1;
    }
    NoneListed(builder.buf, members[i..]);
    return builder.buf;
  }

  lemma NoneListed(prefix: seq<byte>, members: seq<Listed>)
    requires members == []
    ensures prefix + ListText(members) == prefix
  {
  }
}
