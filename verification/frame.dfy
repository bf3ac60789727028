// Length-prefixed frames and their incremental decoder (src/protocol/frame.rs).
module Frames {
  import opened Wrappers
  import opened Bytes

  const PROTOCOL_VERSION: byte := 1
  const HEADER_LEN: nat := 8
  const LENGTH_FIELD_LEN: nat := 4
  const MIN_BODY_LEN: nat := 4

  // The registered message types (src/protocol/ids.rs).
  predicate KnownType(id: byte) {
    || 0x01 <= id <= 0x08 || 0x20 <= id <= 0x24 || 0x40 <= id <= 0x43
    || id == 0x60 || id == 0x61 || 0x80 <= id <= 0x82
  }

  datatype Frame = Frame(messageType: byte, payload: seq<byte>)

  datatype FrameError =
    | FrameTooLarge(declared: nat) | PayloadTooLarge(length: nat) | FrameTooShort | UnexpectedEof
    | UnsupportedVersion(found: byte) | UnknownMessageType(id: byte) | NonZeroFlags(flags: nat)

  // ---- encoding ------------------------------------------------------------------

  function BodyLength(f: Frame): nat { |f.payload| + MIN_BODY_LEN }

  function Wire(f: Frame): (wire: seq<byte>)
    ensures |wire| == HEADER_LEN + |f.payload|
  {
    ToBigEndian(BodyLength(f), LENGTH_FIELD_LEN) + [PROTOCOL_VERSION, f.messageType] + ToBigEndian(0, 2) + f.payload
  }

  function EncodeFrame(f: Frame, max: nat): Result<seq<byte>, FrameError> {
    if BodyLength(f) > max then Err(PayloadTooLarge(BodyLength(f))) else Ok(Wire(f))
  }

  function WireAll(frames: seq<Frame>): seq<byte> {
    if frames == [] then [] else Wire(frames[0]) + WireAll(frames[1..])
  }

  // ---- decoding --------------------------------------------------------------------

  datatype Next = NeedMore | Bad(error: FrameError) | Got(frame: Frame, rest: seq<byte>)

  // The first frame of the buffer, if it is complete: one round of the decoder's loop.
  function NextFrame(buf: seq<byte>, max: nat): (next: Next)
    ensures next.Got? ==> |next.rest| < |buf|
  {
    if |buf| < HEADER_LEN then NeedMore
    else
      var declared := FromBigEndian(buf[..LENGTH_FIELD_LEN]);
      if declared > max then Bad(FrameTooLarge(declared))
      else if declared < MIN_BODY_LEN then Bad(FrameTooShort)
      else
        var total := LENGTH_FIELD_LEN + declared;
        if |buf| < total then NeedMore
        else if buf[4] != PROTOCOL_VERSION then Bad(UnsupportedVersion(buf[4]))
        else if !KnownType(buf[5]) then Bad(UnknownMessageType(buf[5]))
        else if FromBigEndian(buf[6..8]) != 0 then Bad(NonZeroFlags(FromBigEndian(buf[6..8])))
        else Got(Frame(buf[5], buf[8..total]), buf[total..])
  }

  datatype Outcome = Outcome(frames: seq<Frame>, rest: seq<byte>, error: Option<FrameError>)

  // Every complete frame of the buffer, and what is left or went wrong.
  function DecodeAll(buf: seq<byte>, max: nat): Outcome
    decreases |buf|
  {
    match NextFrame(buf, max)
    case NeedMore => Outcome([], buf, None)
    case Bad(error) => Outcome([], buf, Some(error))
    case Got(frame, rest) =>
      var more := DecodeAll(rest, max);
      Outcome([frame] + more.frames, more.rest, more.error)
  }

  // A feed that fails returns no frames at all.
  function Feed(buf: seq<byte>, data: seq<byte>, max: nat): Result<(seq<Frame>, seq<byte>), FrameError> {
    var o := DecodeAll(buf + data, max);
    if o.error.Some? then Err(o.error.value) else Ok((o.frames, o.rest))
  }

  // Feeding one chunk after the other, stopping at the first error.
  function FeedAll(buf: seq<byte>, chunks: seq<seq<byte>>, max: nat): Result<(seq<Frame>, seq<byte>), FrameError>
    decreases |chunks|
  {
    if chunks == [] then Ok(([], buf))
    else match Feed(buf, chunks[0], max)
      case Err(error) => Err(error)
      case Ok((frames, rest)) =>
        match FeedAll(rest, chunks[1..], max)
        case Err(error) => Err(error)
        case Ok((more, left)) => Ok((frames + more, left))
  }

  function Concat(chunks: seq<seq<byte>>): seq<byte> {
    if chunks == [] then [] else chunks[0] + Concat(chunks[1..])
  }

  // ---- the decoder as an object --------------------------------------------------------

  class FrameDecoder {
    const max: nat
    var buf: seq<byte>

    constructor (max: nat)
      ensures this.max == max && buf == []
    {
      this.max := max;
      buf := [];
    }

    method FeedChunk(data: seq<byte>) returns (r: Result<seq<Frame>, FrameError>)
      modifies this
      ensures match Feed(old(buf), data, max)
        case Ok((frames, rest)) => r == Ok(frames) && buf == rest
        case Err(error) => r == Err(error)
      ensures r.Ok? ==> NextFrame(buf, max) == NeedMore
    {
      hide FromBigEndian, KnownType;
      buf := buf + data;
      var frames: seq<Frame> := [];
      while true
        invariant DecodeAll(old(buf) + data, max) ==
          Outcome(frames + DecodeAll(buf, max).frames, DecodeAll(buf, max).rest, DecodeAll(buf, max).error)
        decreases |buf|
      {
        if |buf| < HEADER_LEN { break; }
        var declared := FromBigEndian(buf[..LENGTH_FIELD_LEN]);
        if declared > max { return Err(FrameTooLarge(declared)); }
        if declared < MIN_BODY_LEN { return Err(FrameTooShort); }
        var total := LENGTH_FIELD_LEN + declared;
        if |buf| < total { break; }
        if buf[4] != PROTOCOL_VERSION { return Err(UnsupportedVersion(buf[4])); }
        if !KnownType(buf[5]) { return Err(UnknownMessageType(buf[5])); }
        var flags := FromBigEndian(buf[6..8]);
        if flags != 0 { return Err(NonZeroFlags(flags)); }
        var frame := Frame(buf[5], buf[8..total]);
        TakeOne(frames, frame, buf, buf[total..], max);
        frames := frames + [frame];
        buf := buf[total..];
      }
      assert frames + [] == frames;
      return Ok(frames);
    }

    method Finish() returns (r: Result<(), FrameError>)
      ensures r == if buf == [] then Ok(()) else Err(UnexpectedEof)
    {
      return if buf == [] then Ok(()) else Err(UnexpectedEof);
    }
  }

  lemma TakeOne(frames: seq<Frame>, frame: Frame, buf: seq<byte>, rest: seq<byte>, max: nat)
    requires NextFrame(buf, max) == Got(frame, rest)
    ensures frames + DecodeAll(buf, max).frames == frames + [frame] + DecodeAll(rest, max).frames
    ensures DecodeAll(buf, max).rest == DecodeAll(rest, max).rest &&
      DecodeAll(buf, max).error == DecodeAll(rest, max).error
  {
    hide NextFrame;
  }

  // ---- chunking ----------------------------------------------------------------------------

  lemma MoreBytes(buf: seq<byte>, more: seq<byte>, max: nat)
    ensures NextFrame(buf, max).Got? ==>
      NextFrame(buf + more, max) == Got(NextFrame(buf, max).frame, NextFrame(buf, max).rest + more)
    ensures NextFrame(buf, max).Bad? ==> NextFrame(buf + more, max) == NextFrame(buf, max)
  {
    if |buf| >= HEADER_LEN {
      var declared := FromBigEndian(buf[..LENGTH_FIELD_LEN]);
      var total := LENGTH_FIELD_LEN + declared;
      assert (buf + more)[..LENGTH_FIELD_LEN] == buf[..LENGTH_FIELD_LEN];
      assert (buf + more)[6..8] == buf[6..8];
      if MIN_BODY_LEN <= declared && total <= |buf| {
        assert (buf + more)[8..total] == buf[8..total];
        assert (buf + more)[total..] == buf[total..] + more;
      }
    }
  }

  // What was decoded stays decoded, and an error stays the same error.
  lemma {:induction false} DecodeMore(buf: seq<byte>, more: seq<byte>, max: nat)
    ensures var o := DecodeAll(buf, max);
      var whole := DecodeAll(buf + more, max);
      if o.error.Some? then whole.error == o.error && whole.frames == o.frames
      else var tail := DecodeAll(o.rest + more, max);
        whole == Outcome(o.frames + tail.frames, tail.rest, tail.error)
    decreases |buf|
  {
    hide NextFrame;
    MoreBytes(buf, more, max);
    match NextFrame(buf, max)
    case Got(frame, rest) => DecodeMore(rest, more, max);
    case _ =>
  }

  // Decoding does not depend on how the stream is cut: feeding piece by piece succeeds exactly
  // when feeding everything at once does, with the same frames and the same bytes left over,
  // and fails with the same error otherwise.
  lemma {:induction false} ChunkingIndependence(buf: seq<byte>, chunks: seq<seq<byte>>, max: nat)
    requires NextFrame(buf, max) == NeedMore
    ensures FeedAll(buf, chunks, max) == Feed(buf, Concat(chunks), max)
    decreases |chunks|
  {
    if chunks == [] {
      assert buf + [] == buf;
    } else {
      var rest := Concat(chunks[1..]);
      assert buf + Concat(chunks) == (buf + chunks[0]) + rest;
      DecodeMore(buf + chunks[0], rest, max);
      RestNeedsMore(buf + chunks[0], max);
      var o := DecodeAll(buf + chunks[0], max);
      if o.error.None? { ChunkingIndependence(o.rest, chunks[1..], max); }
    }
  }

  lemma {:induction false} RestNeedsMore(buf: seq<byte>, max: nat)
    ensures DecodeAll(buf, max).error.None? ==> NextFrame(DecodeAll(buf, max).rest, max) == NeedMore
    decreases |buf|
  {
    match NextFrame(buf, max)
    case Got(_, rest) => RestNeedsMore(rest, max);
    case _ =>
  }

  // At most one incomplete frame stays in the buffer after a feed that succeeds.
  lemma {:induction false} ResidualBound(buf: seq<byte>, data: seq<byte>, max: nat)
    requires Feed(buf, data, max).Ok?
    ensures var rest := Feed(buf, data, max).value.1;
      |rest| < HEADER_LEN || |rest| < LENGTH_FIELD_LEN + max
  {
    RestNeedsMore(buf + data, max);
  }

  // ---- round trips ---------------------------------------------------------------------------

  predicate Encodable(f: Frame, max: nat) { KnownType(f.messageType) && EncodeFrame(f, max).Ok? }

  lemma WireParts(f: Frame, more: seq<byte>)
    ensures var wire := Wire(f) + more;
      && wire[..4] == ToBigEndian(BodyLength(f), 4)
      && wire[4] == PROTOCOL_VERSION && wire[5] == f.messageType && wire[6..8] == ToBigEndian(0, 2)
      && wire[8..8 + |f.payload|] == f.payload && wire[8 + |f.payload|..] == more
  {
    var wire := Wire(f) + more;
    var prefix := ToBigEndian(BodyLength(f), LENGTH_FIELD_LEN);
    assert wire == prefix + ([PROTOCOL_VERSION, f.messageType] + ToBigEndian(0, 2) + f.payload + more);
    assert wire[..4] == prefix;
    assert wire[6..8] == ToBigEndian(0, 2);
    assert wire[8..8 + |f.payload|] == f.payload;
  }

  lemma LengthFits(value: nat)
    requires value < 0x1_0000_0000
    ensures FromBigEndian(ToBigEndian(value, 4)) == value
  {
    assert Pow256(4) == 0x1_0000_0000 by { assert Pow256(2) == 65536; assert Pow256(3) == 256 * 65536; }
    FromToBigEndian(value, 4);
  }

  lemma ZeroFlags()
    ensures FromBigEndian(ToBigEndian(0, 2)) == 0
  {
    assert Pow256(2) == 65536;
    FromToBigEndian(0, 2);
  }

  lemma WireDecodes(f: Frame, more: seq<byte>, max: nat)
    requires Encodable(f, max) && BodyLength(f) < 0x1_0000_0000
    ensures NextFrame(Wire(f) + more, max) == Got(f, more)
  {
    hide Wire, ToBigEndian, FromBigEndian;
    WireParts(f, more);
    LengthFits(BodyLength(f));
    ZeroFlags();
  }

  // The length field has four bytes: a frame comes back from its encoding exactly if its body
  // fits them. The frame limit alone does not say so.
  lemma {:induction false} RoundTripExactly(f: Frame, max: nat)
    requires Encodable(f, max)
    ensures DecodeAll(EncodeFrame(f, max).value, max) == Outcome([f], [], None) <==> BodyLength(f) < 0x1_0000_0000
  {
    assert Wire(f) + [] == Wire(f);
    if BodyLength(f) < 0x1_0000_0000 {
      WireDecodes(f, [], max);
    } else {
      LongFrame(f, max);
    }
  }

  lemma LongFrame(f: Frame, max: nat)
    requires BodyLength(f) >= 0x1_0000_0000
    ensures NextFrame(Wire(f), max).Got? ==> NextFrame(Wire(f), max).frame != f
    ensures DecodeAll(Wire(f), max) != Outcome([f], [], None)
  {
    hide Wire, ToBigEndian;
    assert Wire(f) + [] == Wire(f);
    WireParts(f, []);
    assert FromBigEndian(Wire(f)[..4]) < Pow256(4);
    assert Pow256(4) == 0x1_0000_0000 by { assert Pow256(2) == 65536; assert Pow256(3) == 256 * 65536; }
  }

  // Any list of frames that fit decodes back to itself from its concatenated encodings, in
  // whatever chunks they arrive.
  lemma {:induction false} FramesRoundTrip(frames: seq<Frame>, max: nat)
    requires forall i :: 0 <= i < |frames| ==> Encodable(frames[i], max) && BodyLength(frames[i]) < 0x1_0000_0000
    ensures DecodeAll(WireAll(frames), max) == Outcome(frames, [], None)
    decreases |frames|
  {
    if frames != [] {
      WireDecodes(frames[0], WireAll(frames[1..]), max);
      FramesRoundTrip(frames[1..], max);
      assert frames == [frames[0]] + frames[1..];
    }
  }

  lemma {:induction false} ChunkedRoundTrip(frames: seq<Frame>, chunks: seq<seq<byte>>, max: nat)
    requires forall i :: 0 <= i < |frames| ==> Encodable(frames[i], max) && BodyLength(frames[i]) < 0x1_0000_0000
    requires Concat(chunks) == WireAll(frames)
    ensures FeedAll([], chunks, max) == Ok((frames, []))
  {
    ChunkingIndependence([], chunks, max);
    assert [] + WireAll(frames) == WireAll(frames);
    FramesRoundTrip(frames, max);
  }

  // Conversely the decoder takes nothing but encodings: what it consumed is what encoding its
  // frames again would give.
  lemma {:induction false} DecodedIsWire(buf: seq<byte>, max: nat)
    ensures var o := DecodeAll(buf, max);
      && buf == WireAll(o.frames) + o.rest
      && forall i :: 0 <= i < |o.frames| ==> Encodable(o.frames[i], max)
    decreases |buf|
  {
    hide NextFrame, Wire, WireAll, Encodable;
    match NextFrame(buf, max)
    case Got(frame, rest) =>
      DecodedIsWire(rest, max);
      GotIsWire(buf, max);
      OneMoreOnWire(frame, DecodeAll(rest, max).frames, DecodeAll(rest, max).rest);
    case _ =>
      NothingOnWire(buf);
  }

  lemma OneMoreOnWire(frame: Frame, frames: seq<Frame>, rest: seq<byte>)
    ensures Wire(frame) + (WireAll(frames) + rest) == WireAll([frame] + frames) + rest
  {
    hide Wire;
    assert ([frame] + frames)[1..] == frames;
  }

  lemma NothingOnWire(buf: seq<byte>)
    ensures buf == WireAll([]) + buf
  {
  }

  lemma GotIsWire(buf: seq<byte>, max: nat)
    requires NextFrame(buf, max).Got?
    ensures var next := NextFrame(buf, max); buf == Wire(next.frame) + next.rest && Encodable(next.frame, max)
  {
    hide ToBigEndian, FromBigEndian;
    var declared := FromBigEndian(buf[..4]);
    ToFromBigEndian(buf[..4]);
    ToFromBigEndian(buf[6..8]);
    var total := 4 + declared;
    assert buf == buf[..4] + [buf[4], buf[5]] + buf[6..8] + buf[8..total] + buf[total..];
  }
}
