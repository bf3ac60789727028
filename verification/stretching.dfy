// What a payload means does not depend on what follows it, and nothing may follow it: strict decoding
// takes a payload whole or not at all.
module Stretching {
  import opened Wrappers
  import opened Bytes
  import opened Cbor
  import opened Membership

  function More(r: Reader, x: seq<byte>): Reader { r.(rest := r.rest + x) }

  // The reading `b` of a longer input is the reading `a` with the rest longer by `x`.
  predicate Stretched<T(==)>(a: Reading<T>, b: Reading<T>, x: seq<byte>) {
    a.Ok? ==> b == Ok((a.value.0, More(a.value.1, x)))
  }

  // ---- scalars -------------------------------------------------------------------------------------

  lemma HeadStretches(s: seq<byte>, x: seq<byte>)
    ensures ReadHead(s).Ok? ==> ReadHead(s + x) == Ok((ReadHead(s).value.0, ReadHead(s).value.1 + x))
  {
    hide FromBigEndian;
    if ReadHead(s).Ok? {
      assert (s + x)[0] == s[0];
      assert (s + x)[1..] == s[1..] + x;
      var width := ArgumentWidth(s[0] % 32);
      if width.Some? {
        assert (s + x)[1..1 + width.value] == s[1..1 + width.value];
        assert (s + x)[1 + width.value..] == s[1 + width.value..] + x;
      }
    }
  }

  lemma StringStretches(r: Reader, major: nat, x: seq<byte>)
    ensures Stretched(ReadString(r, major), ReadString(More(r, x), major), x)
  {
    hide ReadHead;
    HeadStretches(r.rest, x);
    if ReadString(r, major).Ok? {
      var (head, rest) := ReadHead(r.rest).value;
      var n := head.argument.value;
      assert (rest + x)[..n] == rest[..n] && (rest + x)[n..] == rest[n..] + x;
    }
  }

  lemma ScalarsStretch(r: Reader, limits: Limits, x: seq<byte>)
    ensures Stretched(ReadU64(r), ReadU64(More(r, x)), x) && Stretched(ReadU8(r), ReadU8(More(r, x)), x)
    ensures Stretched(ReadBool(r), ReadBool(More(r, x)), x)
    ensures Stretched(ReadBytes(r, limits), ReadBytes(More(r, x), limits), x)
    ensures Stretched(ReadText(r, limits), ReadText(More(r, x), limits), x)
  {
    hide ReadHead, ReadString, WellFormed;
    HeadStretches(r.rest, x);
    StringStretches(r, BYTES, x);
    StringStretches(r, TEXT, x);
    if ReadBool(r).Ok? { assert (r.rest + x)[1..] == r.rest[1..] + x; }
  }

  // ---- containers -----------------------------------------------------------------------------------

  ghost predicate EntryStretches<A(!new)>(entry: Entry<A>) {
    forall r: Reader, key: nat, acc: A, x: seq<byte> :: EntryStretch(entry, r, key, acc, x)
  }

  ghost predicate EntryStretch<A(!new)>(entry: Entry<A>, r: Reader, key: nat, acc: A, x: seq<byte>) {
    var a := entry(r, key, acc);
    a.Ok? ==> entry(More(r, x), key, acc) == Ok((a.value.0, More(a.value.1, x)))
  }

  ghost predicate ElementStretches<A(!new)>(element: Element<A>) {
    forall r: Reader, acc: A, x: seq<byte> :: ElementStretch(element, r, acc, x)
  }

  ghost predicate ElementStretch<A(!new)>(element: Element<A>, r: Reader, acc: A, x: seq<byte>) {
    var a := element(r, acc);
    a.Ok? ==> element(More(r, x), acc) == Ok((a.value.0, More(a.value.1, x)))
  }

  lemma {:induction false} EntriesStretch<A(!new)>(r: Reader, declared: nat, seen: seq<nat>, acc: A, entry: Entry<A>,
    x: seq<byte>)
    requires EntryStretches(entry)
    ensures var out := ReadEntries(r, declared, seen, acc, entry);
      out.Ok? ==>
        ReadEntries(More(r, x), declared, seen, acc, entry) == Ok((out.value.0, More(out.value.1, x), out.value.2))
    decreases declared
  {
    hide ReadU64;
    if declared > 0 && ReadEntries(r, declared, seen, acc, entry).Ok? {
      ScalarsStretch(r, Limits(0, 0, 0, 0, 0), x);
      var (key, r1) := ReadU64(r).value;
      assert EntryStretch(entry, r1, key, acc, x);
      var (acc1, r2) := entry(r1, key, acc).value;
      EntriesStretch(r2, declared - 1, seen + [key], acc1, entry, x);
    }
  }

  lemma {:induction false} ElementsStretch<A(!new)>(r: Reader, declared: nat, acc: A, element: Element<A>, x: seq<byte>)
    requires ElementStretches(element)
    ensures var out := ReadElements(r, declared, acc, element);
      out.Ok? ==> ReadElements(More(r, x), declared, acc, element) == Ok((out.value.0, More(out.value.1, x)))
    decreases declared
  {
    if declared > 0 && ReadElements(r, declared, acc, element).Ok? {
      assert ElementStretch(element, r, acc, x);
      ElementsStretch(element(r, acc).value.1, declared - 1, element(r, acc).value.0, element, x);
    }
  }

  lemma MapStretches<A(!new)>(r: Reader, limits: Limits, acc: A, entry: Entry<A>, x: seq<byte>)
    requires EntryStretches(entry)
    ensures var a := ReadMap(r, limits, acc, entry);
      a.Ok? ==> ReadMap(More(r, x), limits, acc, entry) == Ok((a.value.0, More(a.value.1, x)))
  {
    hide ReadHead;
    HeadStretches(r.rest, x);
    if EnterMap(r, limits).Ok? {
      var (declared, r1) := EnterMap(r, limits).value;
      EntriesStretch(r1, declared, [], acc, entry, x);
    }
  }

  lemma ArrayStretches<A(!new)>(r: Reader, limits: Limits, acc: A, element: Element<A>, x: seq<byte>)
    requires ElementStretches(element)
    ensures var a := ReadArray(r, limits, acc, element);
      a.Ok? ==> ReadArray(More(r, x), limits, acc, element) == Ok((a.value.0, More(a.value.1, x)))
  {
    hide ReadHead;
    HeadStretches(r.rest, x);
    if EnterArray(r, limits).Ok? {
      var (declared, r1) := EnterArray(r, limits).value;
      ElementsStretch(r1, declared, acc, element, x);
    }
  }

  // ---- the snapshot ------------------------------------------------------------------------------------

  lemma MemberEntryStretches(limits: Limits)
    ensures EntryStretches(MemberEntry(limits))
  {
    hide ReadU64, ReadU8, ReadText, ReadBytes, ReadBool;
    forall r: Reader, key: nat, acc: SomeMember, x: seq<byte>
      ensures EntryStretch(MemberEntry(limits), r, key, acc, x) {
      ScalarsStretch(r, limits, x);
    }
  }

  lemma MemberElementStretches(limits: Limits)
    ensures ElementStretches(MemberElement(limits))
  {
    hide ReadMap, MemberEntry;
    MemberEntryStretches(limits);
    forall r: Reader, acc: seq<WireMember>, x: seq<byte> ensures ElementStretch(MemberElement(limits), r, acc, x) {
      MapStretches(r, limits, NO_MEMBER, MemberEntry(limits), x);
    }
  }

  lemma SnapshotEntryStretches(limits: Limits)
    ensures EntryStretches(SnapshotEntry(limits))
  {
    hide ReadU64, ReadBytes, ReadArray, MemberElement;
    MemberElementStretches(limits);
    forall r: Reader, key: nat, acc: SomeSnapshot, x: seq<byte>
      ensures EntryStretch(SnapshotEntry(limits), r, key, acc, x) {
      ScalarsStretch(r, limits, x);
      ArrayStretches(r, limits, [], MemberElement(limits), x);
    }
  }

  lemma SnapshotStretches(r: Reader, limits: Limits, x: seq<byte>)
    ensures Stretched(ReadSnapshot(r, limits), ReadSnapshot(More(r, x), limits), x)
  {
    hide ReadMap, SnapshotEntry;
    SnapshotEntryStretches(limits);
    MapStretches(r, limits, NO_SNAPSHOT, SnapshotEntry(limits), x);
  }

  // Whatever payload is accepted, with anything after it it is refused as having trailing data.
  lemma {:induction false} AcceptedIsWhole(payload: seq<byte>, x: seq<byte>, limits: Limits)
    requires DecodeSnapshot(payload, limits).Ok? && x != []
    ensures DecodeSnapshot(payload + x, limits) == Err(TrailingData)
  {
    hide ReadSnapshot;
    SnapshotStretches(Reader(payload, 0), limits, x);
  }

  // In particular after the encoding of a snapshot, in any order of entries.
  lemma {:induction false} NothingAfterSnapshot(s: WireSnapshot, keys: seq<nat>, orders: seq<seq<nat>>, x: seq<byte>,
    limits: Limits)
    requires s.Typed() && Permuted(keys, 4) && OrdersFor(s.members, orders) && x != []
    requires Within(s, limits)
    ensures DecodeSnapshot(SnapshotText(s, keys, orders) + x, limits) == Err(TrailingData)
  {
    hide DecodeSnapshot, SnapshotText, Permuted, Within;
    SnapshotReadsBack(s, keys, orders, limits);
    AcceptedIsWhole(SnapshotText(s, keys, orders), x, limits);
  }
}
