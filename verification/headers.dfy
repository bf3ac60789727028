// What the frame decoder answers to any header, well formed or not (docs/protocol-v1.md, sections 3 and 4).
module Headers {
  import opened Bytes
  import opened Frames
  import Cbor

  // The registered message types, one by one.
  const MESSAGE_TYPES: seq<byte> := [
    0x01, 0x02, 0x03, 0x04, 0x05, 0x06, 0x07, 0x08, 0x20, 0x21, 0x22, 0x23, 0x24, 0x40, 0x41, 0x42, 0x43, 0x60, 0x61,
    0x80, 0x81, 0x82]

  // Length, version, type and flags as they stand on the wire.
  function Header(declared: nat, version: byte, id: byte, flags: nat): seq<byte> {
    ToBigEndian(declared, 4) + [version, id] + ToBigEndian(flags, 2)
  }

  lemma KnownTypesExactly(id: byte)
    ensures KnownType(id) <==> id in MESSAGE_TYPES
  {
    if 0x01 <= id <= 0x08 { assert MESSAGE_TYPES[id - 1] == id; }
    if 0x20 <= id <= 0x24 { assert MESSAGE_TYPES[8 + (id - 0x20)] == id; }
    if 0x40 <= id <= 0x43 { assert MESSAGE_TYPES[13 + (id - 0x40)] == id; }
    if 0x60 <= id <= 0x61 { assert MESSAGE_TYPES[17 + (id - 0x60)] == id; }
    if 0x80 <= id <= 0x82 { assert MESSAGE_TYPES[19 + (id - 0x80)] == id; }
  }

  lemma HeaderReads(declared: nat, version: byte, id: byte, flags: nat, rest: seq<byte>)
    requires declared < 0x1_0000_0000 && flags < 0x1_0000
    ensures var buf := Header(declared, version, id, flags) + rest;
      && |buf| == 8 + |rest| && FromBigEndian(buf[..4]) == declared && buf[4] == version && buf[5] == id
      && FromBigEndian(buf[6..8]) == flags && buf[8..] == rest
  {
    hide ToBigEndian, FromBigEndian;
    var buf := Header(declared, version, id, flags) + rest;
    assert Pow256(4) == 0x1_0000_0000 && Pow256(2) == 0x1_0000 by { Cbor.Widths(); }
    FromToBigEndian(declared, 4);
    FromToBigEndian(flags, 2);
    assert buf[..4] == ToBigEndian(declared, 4) && buf[6..8] == ToBigEndian(flags, 2);
  }

  // A length outside the limits is refused at once; a frame that is not complete waits for more; and a
  // complete one is refused for its version, its type or its flags, in that order, or returned.
  lemma {:induction false} HeaderAnswered(declared: nat, version: byte, id: byte, flags: nat, rest: seq<byte>, max: nat)
    requires declared < 0x1_0000_0000 && flags < 0x1_0000
    ensures NextFrame(Header(declared, version, id, flags) + rest, max) ==
      if declared > max then Bad(FrameTooLarge(declared))
      else if declared < 4 then Bad(FrameTooShort)
      else if |rest| + 4 < declared then NeedMore
      else if version != 1 then Bad(UnsupportedVersion(version))
      else if id !in MESSAGE_TYPES then Bad(UnknownMessageType(id))
      else if flags != 0 then Bad(NonZeroFlags(flags))
      else Got(Frame(id, rest[..declared - 4]), rest[declared - 4..])
  {
    hide ToBigEndian, FromBigEndian, KnownType, Header;
    var buf := Header(declared, version, id, flags) + rest;
    HeaderReads(declared, version, id, flags, rest);
    KnownTypesExactly(id);
    if 4 <= declared <= |rest| + 4 {
      assert buf[8..4 + declared] == buf[8..][..declared - 4];
      assert buf[4 + declared..] == buf[8..][declared - 4..];
    }
  }

  // Fewer bytes than a header wait for more.
  lemma ShortHeaderWaits(buf: seq<byte>, max: nat)
    requires |buf| < 8
    ensures NextFrame(buf, max) == NeedMore
  {
  }
}
