// Whatever payload strict decoding accepts, the value survives encoding: it is well typed, within the
// limits, and decodes to itself again.
module Accepted {
  import opened Wrappers
  import opened Bytes
  import opened Cbor
  import opened Membership

  // ---- scalars -------------------------------------------------------------------------------------

  lemma ArgumentFits(s: seq<byte>)
    ensures ReadHead(s).Ok? && ReadHead(s).value.0.argument.Some? ==> ReadHead(s).value.0.argument.value < U64_LIMIT
  {
    hide FromBigEndian, Pow256;
    Widths();
  }

  lemma ScalarsFit(r: Reader, limits: Limits)
    ensures ReadU64(r).Ok? ==> ReadU64(r).value.0 < U64_LIMIT
    ensures ReadU8(r).Ok? ==> ReadU8(r).value.0 < 256
    ensures ReadBytes(r, limits).Ok? ==> |ReadBytes(r, limits).value.0| <= limits.bytesLen
    ensures ReadText(r, limits).Ok? ==>
      WellFormed(ReadText(r, limits).value.0) && |ReadText(r, limits).value.0| <= limits.textBytes
      && |ReadText(r, limits).value.0| < U64_LIMIT
  {
    hide ReadHead, WellFormed;
    ArgumentFits(r.rest);
  }

  // ---- what each scalar is read from -----------------------------------------------------------------

  // A head of this major type with argument `n`, in any of the widths it fits: section 3 of RFC 8949.
  predicate HeadText(text: seq<byte>, major: nat, n: nat) {
    || (n < 24 && text == [32 * major + n])
    || (|text| == 2 && text[0] == 32 * major + 24 && text[1..] == ToBigEndian(n, 1) && n < 0x100)
    || (|text| == 3 && text[0] == 32 * major + 25 && text[1..] == ToBigEndian(n, 2) && n < 0x1_0000)
    || (|text| == 5 && text[0] == 32 * major + 26 && text[1..] == ToBigEndian(n, 4) && n < 0x1_0000_0000)
    || (|text| == 9 && text[0] == 32 * major + 27 && text[1..] == ToBigEndian(n, 8) && n < U64_LIMIT)
  }

  lemma HeadTextReads(text: seq<byte>, major: nat, n: nat, rest: seq<byte>)
    requires major < 8 && HeadText(text, major, n)
    ensures ReadHead(text + rest) == Ok((Head(major, Some(n)), rest))
  {
    hide ToBigEndian, FromBigEndian, Pow256, ReadHead;
    Widths();
    if n < 24 && text == [32 * major + n] { ShortHead(major, n, rest); }
    else {
      assert text == [text[0]] + text[1..];
      var info := text[0] - 32 * major;
      WideHead(major, info, |text| - 1, n, rest);
    }
  }

  lemma ReadIsHeadText(s: seq<byte>)
    requires ReadHead(s).Ok? && ReadHead(s).value.0.argument.Some?
    ensures var (head, rest) := ReadHead(s).value;
      exists text: seq<byte> :: s == text + rest && HeadText(text, head.major, head.argument.value)
  {
    hide ToBigEndian, FromBigEndian, Pow256;
    Widths();
    var (head, rest) := ReadHead(s).value;
    var width := ArgumentWidth(s[0] % 32).value;
    var text := s[..1 + width];
    assert s == text + rest;
    if width == 0 { assert text == [s[0]]; }
    else {
      ToFromBigEndian(s[1..1 + width]);
      assert text[1..] == s[1..1 + width];
    }
    assert HeadText(text, head.major, head.argument.value);
  }

  // A definite head is read exactly from its spellings.
  lemma {:induction false} HeadExactly(s: seq<byte>, major: nat, n: nat, rest: seq<byte>)
    requires major < 8
    ensures ReadHead(s) == Ok((Head(major, Some(n)), rest)) <==>
      exists text: seq<byte> :: s == text + rest && HeadText(text, major, n)
  {
    hide ReadHead, HeadText;
    if ReadHead(s) == Ok((Head(major, Some(n)), rest)) { ReadIsHeadText(s); }
    forall text: seq<byte> | s == text + rest && HeadText(text, major, n)
      ensures ReadHead(s) == Ok((Head(major, Some(n)), rest)) {
      HeadTextReads(text, major, n, rest);
    }
  }

  // The encoder writes the shortest spelling.
  lemma {:induction false} ShortestHead(major: nat, n: nat, text: seq<byte>)
    requires major < 8 && n < U64_LIMIT && HeadText(text, major, n)
    ensures HeadText(EncodeHead(major, n), major, n) && |EncodeHead(major, n)| <= |text|
  {
    hide ToBigEndian;
    if n >= 24 {
      var width := |EncodeHead(major, n)| - 1;
      assert EncodeHead(major, n)[1..] == ToBigEndian(n, width);
    }
  }

  predicate Spelled(s: seq<byte>, major: nat, n: nat, rest: seq<byte>)
    requires major < 8
  {
    ReadHead(s) == Ok((Head(major, Some(n)), rest))
  }

  // Integers, booleans and strings are read exactly from these, with `HeadExactly`.
  lemma {:induction false} ScalarsExactly(r: Reader, limits: Limits, n: nat, b: bool, data: seq<byte>, rest: seq<byte>)
    ensures ReadU64(r) == Ok((n, Reader(rest, r.depth))) <==> Spelled(r.rest, 0, n, rest) && n < U64_LIMIT
    ensures ReadU8(r) == Ok((n, Reader(rest, r.depth))) <==> Spelled(r.rest, 0, n, rest) && n < 256
    ensures ReadBool(r) == Ok((b, Reader(rest, r.depth))) <==> r.rest == [if b then 0xf5 else 0xf4] + rest
    ensures ReadBytes(r, limits) == Ok((data, Reader(rest, r.depth))) <==>
      Spelled(r.rest, 2, |data|, data + rest) && |data| <= limits.bytesLen
    ensures ReadText(r, limits) == Ok((data, Reader(rest, r.depth))) <==>
      Spelled(r.rest, 3, |data|, data + rest) && |data| <= limits.textBytes && WellFormed(data)
  {
    hide ReadHead, WellFormed;
    if r.rest != [] { assert r.rest == [r.rest[0]] + r.rest[1..]; }
    assert ([if b then 0xf5 else 0xf4] + rest)[1..] == rest;
    assert (data + rest)[..|data|] == data && (data + rest)[|data|..] == rest;
    if ReadHead(r.rest).Ok? && ReadHead(r.rest).value.0.argument.Some? {
      var (head, body) := ReadHead(r.rest).value;
      if head.argument.value <= |body| { assert body == body[..head.argument.value] + body[head.argument.value..]; }
    }
  }

  // ---- containers -----------------------------------------------------------------------------------

  // A schema that, at a depth, keeps what holds of the values it collects.
  ghost predicate EntryKeeps<A(!new)>(entry: Entry<A>, depth: nat, good: A -> bool) {
    forall r: Reader, key: nat, acc: A :: EntryKept(entry, depth, good, r, key, acc)
  }

  ghost predicate EntryKept<A(!new)>(entry: Entry<A>, depth: nat, good: A -> bool, r: Reader, key: nat, acc: A) {
    var reading := entry(r, key, acc);
    r.depth == depth && good(acc) && reading.Ok? ==> good(reading.value.0) && reading.value.1.depth == depth
  }

  lemma {:induction false} EntriesKeep<A(!new)>(
    r: Reader, declared: nat, seen: seq<nat>, acc: A, entry: Entry<A>, good: A -> bool)
    requires EntryKeeps(entry, r.depth, good) && good(acc)
    ensures var out := ReadEntries(r, declared, seen, acc, entry); out.Ok? ==> good(out.value.0)
    decreases declared
  {
    hide ReadHead;
    if declared > 0 && ReadU64(r).Ok? {
      var (key, r1) := ReadU64(r).value;
      assert EntryKept(entry, r.depth, good, r1, key, acc);
      if key !in seen && entry(r1, key, acc).Ok? {
        var (acc1, r2) := entry(r1, key, acc).value;
        EntriesKeep(r2, declared - 1, seen + [key], acc1, entry, good);
      }
    }
  }

  // ---- one member ---------------------------------------------------------------------------------------

  predicate GoodPart(p: SomeMember, limits: Limits) {
    && (p.id.Some? ==> p.id.value < U64_LIMIT)
    && (p.nickname.Some? ==>
        WellFormed(p.nickname.value) && |p.nickname.value| <= limits.textBytes && |p.nickname.value| < U64_LIMIT)
    && (p.color.Some? ==> p.color.value < 256)
    && (p.ed25519.Some? ==> |p.ed25519.value| == KEY_LEN <= limits.bytesLen)
  }

  function GoodMember(limits: Limits): SomeMember -> bool { (p: SomeMember) => GoodPart(p, limits) }

  lemma MemberEntryKeeps(limits: Limits, depth: nat)
    ensures EntryKeeps(MemberEntry(limits), depth, GoodMember(limits))
  {
    hide ReadU64, ReadU8, ReadText, ReadBytes, ReadBool, WellFormed;
    forall r: Reader, key: nat, acc: SomeMember
      ensures EntryKept(MemberEntry(limits), depth, GoodMember(limits), r, key, acc) {
      ScalarsFit(r, limits);
      ScalarsKeepDepth(r, limits);
    }
  }

  lemma {:induction false} AcceptedMemberFits(r: Reader, limits: Limits)
    requires ReadMember(r, limits).Ok?
    ensures var (m, r1) := ReadMember(r, limits).value;
      m.Typed() && MemberFits(m, limits, r.depth) && r1.depth == r.depth
  {
    hide ReadHead, ReadMemberField, WellFormed, ReadEntries;
    AcceptedHasEveryField(r, limits);
    var (declared, r1) := EnterMap(r, limits).value;
    MemberEntryKeeps(limits, r1.depth);
    EntriesKeep(r1, declared, [], NO_MEMBER, MemberEntry(limits), GoodMember(limits));
    MemberKeepsDepth(r, limits);
  }

  // ---- the array of members -------------------------------------------------------------------------------

  lemma {:induction false} AcceptedMembersFit(r: Reader, declared: nat, acc: seq<WireMember>, limits: Limits)
    requires forall i :: 0 <= i < |acc| ==> acc[i].Typed() && MemberFits(acc[i], limits, r.depth)
    ensures var out := ReadElements(r, declared, acc, MemberElement(limits));
      out.Ok? ==> |out.value.0| == |acc| + declared && forall i :: 0 <= i < |out.value.0| ==>
        out.value.0[i].Typed() && MemberFits(out.value.0[i], limits, r.depth)
    decreases declared
  {
    hide ReadMember, MemberFits;
    if declared > 0 && ReadMember(r, limits).Ok? {
      AcceptedMemberFits(r, limits);
      var (m, r1) := ReadMember(r, limits).value;
      AcceptedMembersFit(r1, declared - 1, acc + [m], limits);
    }
  }

  predicate GoodMembers(ms: seq<WireMember>, limits: Limits, depth: nat) {
    && depth < limits.depth && |ms| <= limits.arrayEntries && |ms| < U64_LIMIT
    && forall i :: 0 <= i < |ms| ==> ms[i].Typed() && MemberFits(ms[i], limits, depth + 1)
  }

  lemma AcceptedArrayFits(r: Reader, limits: Limits)
    ensures var out := ReadArray(r, limits, [], MemberElement(limits));
      out.Ok? ==> GoodMembers(out.value.0, limits, r.depth) && out.value.1.depth == r.depth
  {
    hide ReadHead, ReadMember, MemberFits;
    ArgumentFits(r.rest);
    forall r, acc ensures KeepsDepth(r, MemberElement(limits)(r, acc)) { MemberKeepsDepth(r, limits); }
    ArrayKeepsDepth(r, limits, [], MemberElement(limits));
    if EnterArray(r, limits).Ok? {
      var (declared, r1) := EnterArray(r, limits).value;
      AcceptedMembersFit(r1, declared, [], limits);
    }
  }

  // ---- the snapshot -----------------------------------------------------------------------------------------

  predicate GoodSnapshotPart(p: SomeSnapshot, limits: Limits, depth: nat) {
    && (p.sequence.Some? ==> p.sequence.value < U64_LIMIT)
    && (p.epoch.Some? ==> p.epoch.value < U64_LIMIT)
    && (p.members.Some? ==> GoodMembers(p.members.value, limits, depth))
    && (p.signature.Some? ==> |p.signature.value| == SIGNATURE_LEN <= limits.bytesLen)
  }

  function GoodSnapshot(limits: Limits, depth: nat): SomeSnapshot -> bool {
    (p: SomeSnapshot) => GoodSnapshotPart(p, limits, depth)
  }

  lemma SnapshotEntryKeeps(limits: Limits, depth: nat)
    ensures EntryKeeps(SnapshotEntry(limits), depth, GoodSnapshot(limits, depth))
  {
    hide ReadU64, ReadBytes, ReadArray, GoodMembers;
    forall r: Reader, key: nat, acc: SomeSnapshot
      ensures EntryKept(SnapshotEntry(limits), depth, GoodSnapshot(limits, depth), r, key, acc) {
      ScalarsFit(r, limits);
      ScalarsKeepDepth(r, limits);
      AcceptedArrayFits(r, limits);
    }
  }

  lemma AcceptedSnapshotFits(r: Reader, limits: Limits)
    requires ReadSnapshot(r, limits).Ok? && r.depth == 0
    ensures var s := ReadSnapshot(r, limits).value.0; s.Typed() && Within(s, limits)
  {
    hide ReadHead, ReadSnapshotField, ReadEntries;
    AcceptedSnapshotHasEveryField(r, limits);
    var (declared, r1) := EnterMap(r, limits).value;
    SnapshotEntryKeeps(limits, 1);
    EntriesKeep(r1, declared, [], NO_SNAPSHOT, SnapshotEntry(limits), GoodSnapshot(limits, 1));
    var s := ReadSnapshot(r, limits).value.0;
    if s.members != [] { assert MemberFits(s.members[0], limits, 2); }
    forall i | 0 <= i < |s.members| ensures |s.members[i].nickname| <= limits.textBytes {
      assert MemberFits(s.members[i], limits, 2);
    }
  }

  // Any accepted payload, the encoder's or not: its value decodes from its own encoding.
  lemma {:induction false} AcceptedSurvives(payload: seq<byte>, limits: Limits)
    requires DecodeSnapshot(payload, limits).Ok?
    ensures var s := DecodeSnapshot(payload, limits).value;
      s.Typed() && Within(s, limits) && DecodeSnapshot(EncodeSnapshot(s), limits) == Ok(s)
  {
    hide ReadSnapshot, EncodeSnapshot, Within;
    AcceptedSnapshotFits(Reader(payload, 0), limits);
    SnapshotRoundTrip(DecodeSnapshot(payload, limits).value, limits);
  }
}
