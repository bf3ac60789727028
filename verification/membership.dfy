// The member snapshot on the wire (src/protocol/membership.rs): a map of an array of maps.
module Membership {
  import opened Wrappers
  import opened Bytes
  import opened Cbor

  const KEY_LEN: nat := 32
  const SIGNATURE_LEN: nat := 64

  datatype WireMember = WireMember(id: nat, nickname: seq<byte>, color: nat, isHost: bool, ed25519: seq<byte>)
  {
    // What the field types say.
    predicate Typed() {
      id < U64_LIMIT && WellFormed(nickname) && |nickname| < U64_LIMIT && color < 256 && |ed25519| == 32
    }
  }

  datatype WireSnapshot = WireSnapshot(sequence: nat, epoch: nat, members: seq<WireMember>, signature: seq<byte>)
  {
    predicate Typed() {
      && sequence < U64_LIMIT && epoch < U64_LIMIT && |members| < U64_LIMIT && |signature| == 64
      && forall i :: 0 <= i < |members| ==> members[i].Typed()
    }
  }

  // ---- decoding ------------------------------------------------------------------------

  datatype SomeMember = SomeMember(
    id: Option<nat>, nickname: Option<seq<byte>>, color: Option<nat>, isHost: Option<bool>,
    ed25519: Option<seq<byte>>)

  function ReadMemberField(r: Reader, key: nat, acc: SomeMember, limits: Limits): Reading<SomeMember> {
    if key == 1 then
      (match ReadU64(r) case Err(e) => Err(e) case Ok((v, r1)) => Ok((acc.(id := Some(v)), r1)))
    else if key == 2 then
      (match ReadText(r, limits) case Err(e) => Err(e) case Ok((v, r1)) => Ok((acc.(nickname := Some(v)), r1)))
    else if key == 3 then
      (match ReadU8(r) case Err(e) => Err(e) case Ok((v, r1)) => Ok((acc.(color := Some(v)), r1)))
    else if key == 4 then
      (match ReadBool(r) case Err(e) => Err(e) case Ok((v, r1)) => Ok((acc.(isHost := Some(v)), r1)))
    else if key == 5 then
      (match ReadBytes(r, limits)
        case Err(e) => Err(e)
        case Ok((v, r1)) => if |v| != KEY_LEN then Err(InvalidField(5)) else Ok((acc.(ed25519 := Some(v)), r1)))
    else Err(UnknownField(key))
  }

  function MemberEntry(limits: Limits): Entry<SomeMember> {
    (r: Reader, key: nat, acc: SomeMember) => ReadMemberField(r, key, acc, limits)
  }

  const NO_MEMBER := SomeMember(None, None, None, None, None)

  function CompleteMember(p: SomeMember): Result<WireMember, CborError> {
    if p.id.None? then Err(MissingField(1))
    else if p.nickname.None? then Err(MissingField(2))
    else if p.color.None? then Err(MissingField(3))
    else if p.isHost.None? then Err(MissingField(4))
    else if p.ed25519.None? then Err(MissingField(5))
    else Ok(WireMember(p.id.value, p.nickname.value, p.color.value, p.isHost.value, p.ed25519.value))
  }

  function ReadMember(r: Reader, limits: Limits): Reading<WireMember> {
    match ReadMap(r, limits, NO_MEMBER, MemberEntry(limits))
    case Err(e) => Err(e)
    case Ok((p, r1)) =>
      match CompleteMember(p) case Err(e) => Err(e) case Ok(m) => Ok((m, r1))
  }

  function MemberElement(limits: Limits): Element<seq<WireMember>> {
    (r: Reader, acc: seq<WireMember>) => AppendMember(r, acc, limits)
  }

  function AppendMember(r: Reader, acc: seq<WireMember>, limits: Limits): Reading<seq<WireMember>> {
    match ReadMember(r, limits) case Err(e) => Err(e) case Ok((m, r1)) => Ok((acc + [m], r1))
  }

  datatype SomeSnapshot = SomeSnapshot(
    sequence: Option<nat>, epoch: Option<nat>, members: Option<seq<WireMember>>, signature: Option<seq<byte>>)

  function ReadSnapshotField(r: Reader, key: nat, acc: SomeSnapshot, limits: Limits): Reading<SomeSnapshot> {
    if key == 1 then
      (match ReadU64(r) case Err(e) => Err(e) case Ok((v, r1)) => Ok((acc.(sequence := Some(v)), r1)))
    else if key == 2 then
      (match ReadU64(r) case Err(e) => Err(e) case Ok((v, r1)) => Ok((acc.(epoch := Some(v)), r1)))
    else if key == 3 then
      (match ReadArray(r, limits, [], MemberElement(limits))
        case Err(e) => Err(e)
        case Ok((v, r1)) => Ok((acc.(members := Some(v)), r1)))
    else if key == 4 then
      (match ReadBytes(r, limits)
        case Err(e) => Err(e)
        case Ok((v, r1)) => if |v| != SIGNATURE_LEN then Err(InvalidField(4)) else Ok((acc.(signature := Some(v)), r1)))
    else Err(UnknownField(key))
  }

  function SnapshotEntry(limits: Limits): Entry<SomeSnapshot> {
    (r: Reader, key: nat, acc: SomeSnapshot) => ReadSnapshotField(r, key, acc, limits)
  }

  const NO_SNAPSHOT := SomeSnapshot(None, None, None, None)

  function CompleteSnapshot(p: SomeSnapshot): Result<WireSnapshot, CborError> {
    if p.sequence.None? then Err(MissingField(1))
    else if p.epoch.None? then Err(MissingField(2))
    else if p.members.None? then Err(MissingField(3))
    else if p.signature.None? then Err(MissingField(4))
    else Ok(WireSnapshot(p.sequence.value, p.epoch.value, p.members.value, p.signature.value))
  }

  function ReadSnapshot(r: Reader, limits: Limits): Reading<WireSnapshot> {
    match ReadMap(r, limits, NO_SNAPSHOT, SnapshotEntry(limits))
    case Err(e) => Err(e)
    case Ok((p, r1)) =>
      match CompleteSnapshot(p) case Err(e) => Err(e) case Ok(s) => Ok((s, r1))
  }

  // A payload: the value and nothing after it.
  function DecodeSnapshot(payload: seq<byte>, limits: Limits): Result<WireSnapshot, CborError> {
    Finished(ReadSnapshot(Reader(payload, 0), limits))
  }

  // ---- encoding ---------------------------------------------------------------------------

  function MemberValue(m: WireMember, key: nat): seq<byte> {
    if key == 1 then EncodeUnsigned(m.id)
    else if key == 2 then EncodeText(m.nickname)
    else if key == 3 then EncodeUnsigned(m.color)
    else if key == 4 then EncodeBool(m.isHost)
    else if key == 5 then EncodeBytes(m.ed25519)
    else []
  }

  function MemberValues(m: WireMember): nat -> seq<byte> { (key: nat) => MemberValue(m, key) }

  // The entries under `keys`, in that order.
  function EntriesText(keys: seq<nat>, value: nat -> seq<byte>): seq<byte> {
    if keys == [] then [] else EncodeUnsigned(keys[0]) + value(keys[0]) + EntriesText(keys[1..], value)
  }

  const MEMBER_KEYS: seq<nat> := [1, 2, 3, 4, 5]
  const SNAPSHOT_KEYS: seq<nat> := [1, 2, 3, 4]

  function MemberText(m: WireMember, keys: seq<nat>): seq<byte> {
    EncodeHead(MAP, |keys|) + EntriesText(keys, MemberValues(m))
  }

  // The members one after the other, each with its entries in an order of its own.
  function MembersText(members: seq<WireMember>, orders: seq<seq<nat>>): seq<byte>
    requires |orders| == |members|
  {
    if members == [] then [] else MemberText(members[0], orders[0]) + MembersText(members[1..], orders[1..])
  }

  function SnapshotValue(s: WireSnapshot, orders: seq<seq<nat>>, key: nat): seq<byte>
    requires |orders| == |s.members|
  {
    if key == 1 then EncodeUnsigned(s.sequence)
    else if key == 2 then EncodeUnsigned(s.epoch)
    else if key == 3 then EncodeHead(ARRAY, |s.members|) + MembersText(s.members, orders)
    else if key == 4 then EncodeBytes(s.signature)
    else []
  }

  function SnapshotValues(s: WireSnapshot, orders: seq<seq<nat>>): nat -> seq<byte>
    requires |orders| == |s.members|
  {
    (key: nat) => SnapshotValue(s, orders, key)
  }

  function SnapshotText(s: WireSnapshot, keys: seq<nat>, orders: seq<seq<nat>>): seq<byte>
    requires |orders| == |s.members|
  {
    EncodeHead(MAP, |keys|) + EntriesText(keys, SnapshotValues(s, orders))
  }

  // The encoder writes every map in the order of its keys.
  function InKeyOrder(n: nat): seq<seq<nat>> { seq(n, _ => MEMBER_KEYS) }

  function EncodeSnapshot(s: WireSnapshot): seq<byte> { SnapshotText(s, SNAPSHOT_KEYS, InKeyOrder(|s.members|)) }

  // ---- maps in any order ----------------------------------------------------------------------

  function KeySet(keys: seq<nat>): set<nat> { set i | 0 <= i < |keys| :: keys[i] }

  // How a schema reads the value under `key` once the values under `done` were read: it takes
  // the value in if it fits, and refuses it otherwise.
  predicate FieldStep<A(==)>(entry: Entry<A>, value: nat -> seq<byte>, fits: nat -> bool, collected: set<nat> -> A,
    depth: nat, key: nat, done: set<nat>, x: seq<byte>)
  {
    var reading := entry(Reader(value(key) + x, depth), key, collected(done));
    (reading.Ok? <==> fits(key)) && (reading.Ok? ==> reading.value == (collected(done + {key}), Reader(x, depth)))
  }

  ghost predicate ReadsField<A>(entry: Entry<A>, value: nat -> seq<byte>, fits: nat -> bool, collected: set<nat> -> A,
    depth: nat, key: nat)
  {
    forall done: set<nat>, x: seq<byte> :: FieldStep(entry, value, fits, collected, depth, key, done, x)
  }

  // Whatever the order of the entries, reading them collects the same.
  lemma {:induction false} EntriesRead<A>(
    keys: seq<nat>, seen: seq<nat>, x: seq<byte>, depth: nat, entry: Entry<A>, value: nat -> seq<byte>,
      fits: nat -> bool, collected: set<nat> -> A)
    requires NoDuplicates(seen + keys) && forall i :: 0 <= i < |keys| ==>
      keys[i] < U64_LIMIT && ReadsField(entry, value, fits, collected, depth, keys[i])
    ensures var out := ReadEntries(Reader(EntriesText(keys, value) + x, depth), |keys|, seen, collected(KeySet(seen)),
      entry);
      && (out.Ok? <==> forall i :: 0 <= i < |keys| ==> fits(keys[i]))
      && (out.Ok? ==> out.value == (collected(KeySet(seen + keys)), Reader(x, depth), seen + keys))
    decreases |keys|
  {
    hide EncodeHead, ReadHead;
    if keys == [] {
      assert EntriesText(keys, value) + x == x && seen + keys == seen;
    } else {
      var key := keys[0];
      var rest := EntriesText(keys[1..], value) + x;
      assert EntriesText(keys, value) + x == EncodeUnsigned(key) + (value(key) + rest);
      UnsignedRoundTrip(key, U64_LIMIT, value(key) + rest, depth);
      assert (seen + keys)[|seen|] == key;
      assert key !in seen by {
        forall i | 0 <= i < |seen| ensures seen[i] != key { assert (seen + keys)[i] == seen[i]; }
      }
      assert ReadsField(entry, value, fits, collected, depth, keys[0]);
      assert FieldStep(entry, value, fits, collected, depth, key, KeySet(seen), rest);
      assert seen + keys == seen + [key] + keys[1..];
      assert KeySet(seen + [key]) == KeySet(seen) + {key} by { KeySetGrows(seen, key); }
      if fits(key) { EntriesRead(keys[1..], seen + [key], x, depth, entry, value, fits, collected); }
      assert keys == [key] + keys[1..];
    }
  }

  lemma KeySetGrows(seen: seq<nat>, key: nat)
    ensures KeySet(seen + [key]) == KeySet(seen) + {key}
  {
    assert (seen + [key])[|seen|] == key;
    assert forall i :: 0 <= i < |seen| ==> (seen + [key])[i] == seen[i];
  }

  // ---- one member -------------------------------------------------------------------------------

  predicate MemberFieldFits(m: WireMember, key: nat, limits: Limits) {
    (key == 2 ==> |m.nickname| <= limits.textBytes) && (key == 5 ==> KEY_LEN <= limits.bytesLen)
  }

  function CollectedMember(m: WireMember, keys: set<nat>): SomeMember {
    SomeMember(
      if 1 in keys then Some(m.id) else None, if 2 in keys then Some(m.nickname) else None,
      if 3 in keys then Some(m.color) else None, if 4 in keys then Some(m.isHost) else None,
      if 5 in keys then Some(m.ed25519) else None)
  }

  lemma MemberFieldReads(m: WireMember, key: nat, limits: Limits, depth: nat, done: set<nat>, x: seq<byte>)
    requires m.Typed() && 1 <= key <= 5
    ensures var reading := ReadMemberField(Reader(MemberValue(m, key) + x, depth), key, CollectedMember(m, done),
      limits);
      (reading.Ok? <==> MemberFieldFits(m, key, limits)) &&
      (MemberFieldFits(m, key, limits) ==> reading.value == (CollectedMember(m, done + {key}), Reader(x, depth)))
  {
    hide EncodeHead, ReadHead, WellFormed;
    if key == 1 { UnsignedRoundTrip(m.id, U64_LIMIT, x, depth); }
    else if key == 2 { StringRoundTrip(TEXT, m.nickname, x, depth); }
    else if key == 3 { UnsignedRoundTrip(m.color, 256, x, depth); }
    else if key == 4 { BoolRoundTrip(m.isHost, x, depth); }
    else { StringRoundTrip(BYTES, m.ed25519, x, depth); }
  }

  // The field keys of a schema with `n` fields.
  function FieldKeys(n: nat): (keys: set<nat>)
    ensures |keys| == n && forall k :: k in keys <==> 1 <= k <= n
  {
    if n == 0 then {} else FieldKeys(n - 1) + {n}
  }

  // The keys of a map with one entry for every field, in any order.
  predicate Permuted(keys: seq<nat>, n: nat) { NoDuplicates(keys) && KeySet(keys) == FieldKeys(n) }

  lemma PermutedKeys(keys: seq<nat>, n: nat)
    requires Permuted(keys, n)
    ensures |keys| == n && forall i :: 0 <= i < |keys| ==> keys[i] in FieldKeys(n) && 1 <= keys[i] <= n
    ensures forall k :: k in FieldKeys(n) ==> k in keys
  {
    KeyCount(keys);
    forall i | 0 <= i < |keys| ensures keys[i] in FieldKeys(n) { assert keys[i] in KeySet(keys); }
    forall k | k in FieldKeys(n) ensures k in keys { assert k in KeySet(keys); }
  }

  lemma {:induction false} KeyCount(keys: seq<nat>)
    requires NoDuplicates(keys)
    ensures |KeySet(keys)| == |keys|
    decreases |keys|
  {
    if keys != [] {
      var before := keys[..|keys| - 1];
      KeyCount(before);
      assert keys == before + [keys[|keys| - 1]];
      KeySetGrows(before, keys[|keys| - 1]);
    }
  }

  // A map with one entry for every field reads back, in whatever order it is written.
  lemma MapReads<A>(keys: seq<nat>, n: nat, x: seq<byte>, depth: nat, limits: Limits,
    entry: Entry<A>, value: nat -> seq<byte>, fits: nat -> bool, collected: set<nat> -> A)
    requires Permuted(keys, n) && n < U64_LIMIT
    requires forall k :: k in FieldKeys(n) ==> ReadsField(entry, value, fits, collected, depth + 1, k)
    ensures var reading := ReadMap(Reader(EncodeHead(MAP, n) + EntriesText(keys, value) + x, depth), limits,
      collected({}), entry);
      && (reading.Ok? <==> depth < limits.depth && n <= limits.mapEntries && forall k :: k in FieldKeys(n) ==> fits(k))
      && (reading.Ok? ==> reading.value == (collected(FieldKeys(n)), Reader(x, depth)))
  {
    hide EncodeHead, ReadHead, EnterMap, ReadsField, ReadEntries, KeySet, EntriesText, FieldKeys, NoDuplicates;
    var body := EntriesText(keys, value);
    assert EncodeHead(MAP, n) + body + x == EncodeHead(MAP, n) + (body + x);
    EnterRoundTrip(n, body + x, depth, limits);
    PermutedKeys(keys, n);
    assert [] + keys == keys;
    NoKeys();
    EntriesRead(keys, [], x, depth + 1, entry, value, fits, collected);
    assert (forall i :: 0 <= i < |keys| ==> fits(keys[i])) <==> forall k :: k in FieldKeys(n) ==> fits(k) by {
      forall k | k in FieldKeys(n) ensures k in keys {}
    }
  }

  lemma NoKeys()
    ensures KeySet([]) == {}
  {
  }

  predicate MemberFits(m: WireMember, limits: Limits, depth: nat) {
    depth < limits.depth && 5 <= limits.mapEntries && |m.nickname| <= limits.textBytes && KEY_LEN <= limits.bytesLen
  }

  // A member comes back from its entries in whatever order they are written, exactly if it is
  // within the limits.
  lemma {:induction false} MemberReadsBack(m: WireMember, keys: seq<nat>, x: seq<byte>, limits: Limits, depth: nat)
    requires m.Typed() && Permuted(keys, 5)
    ensures var reading := ReadMember(Reader(MemberText(m, keys) + x, depth), limits);
      (reading.Ok? <==> MemberFits(m, limits, depth)) && (reading.Ok? ==> reading.value == (m, Reader(x, depth)))
  {
    hide EncodeHead, MemberValues, KeySet, ReadMap, EntriesText, MemberFitting, CollectMember, ReadsField, MemberEntry,
      FieldKeys;
    PermutedKeys(keys, 5);
    forall k | k in FieldKeys(5)
      ensures ReadsField(MemberEntry(limits), MemberValues(m), MemberFitting(m, limits), CollectMember(m), depth + 1,
        k) {
      MemberReadsField(m, limits, depth + 1, k);
    }
    MapReads(keys, 5, x, depth, limits, MemberEntry(limits), MemberValues(m), MemberFitting(m, limits),
      CollectMember(m));
    MemberCollected(m, limits);
  }

  function MemberFitting(m: WireMember, limits: Limits): nat -> bool { (key: nat) => MemberFieldFits(m, key, limits) }

  function CollectMember(m: WireMember): set<nat> -> SomeMember { (done: set<nat>) => CollectedMember(m, done) }

  lemma MemberReadsField(m: WireMember, limits: Limits, depth: nat, k: nat)
    requires m.Typed() && 1 <= k <= 5
    ensures ReadsField(MemberEntry(limits), MemberValues(m), MemberFitting(m, limits), CollectMember(m), depth, k)
  {
    hide ReadMemberField, MemberValue, CollectedMember, MemberFieldFits;
    forall done: set<nat>, y: seq<byte>
      ensures FieldStep(MemberEntry(limits), MemberValues(m), MemberFitting(m, limits), CollectMember(m), depth, k,
        done, y) {
      MemberFieldReads(m, k, limits, depth, done, y);
    }
  }

  lemma MemberCollected(m: WireMember, limits: Limits)
    ensures CollectMember(m)({}) == NO_MEMBER && CompleteMember(CollectMember(m)(FieldKeys(5))) == Ok(m)
    ensures (forall k :: k in FieldKeys(5) ==> MemberFitting(m, limits)(k)) <==>
      |m.nickname| <= limits.textBytes && KEY_LEN <= limits.bytesLen
  {
    hide FieldKeys;
    assert MemberFitting(m, limits)(2) == MemberFieldFits(m, 2, limits) &&
      MemberFitting(m, limits)(5) == MemberFieldFits(m, 5, limits);
    assert 2 in FieldKeys(5) && 5 in FieldKeys(5);
  }

  // ---- the array of members ---------------------------------------------------------------------

  predicate MembersFit(members: seq<WireMember>, limits: Limits, depth: nat) {
    forall i :: 0 <= i < |members| ==> MemberFits(members[i], limits, depth)
  }

  lemma EncodedKeys()
    ensures Permuted(MEMBER_KEYS, 5) && Permuted(SNAPSHOT_KEYS, 4)
  {
    hide KeySet, FieldKeys, NoDuplicates;
    InOrder(MEMBER_KEYS);
    InOrder(SNAPSHOT_KEYS);
  }

  lemma InOrder(keys: seq<nat>)
    requires forall i :: 0 <= i < |keys| ==> keys[i] == i + 1
    ensures Permuted(keys, |keys|)
  {
    forall k | k in FieldKeys(|keys|) ensures k in KeySet(keys) { assert keys[k - 1] == k; }
  }

  // A key order for every member.
  predicate OrdersFor(members: seq<WireMember>, orders: seq<seq<nat>>) {
    |orders| == |members| && forall i :: 0 <= i < |orders| ==> Permuted(orders[i], 5)
  }

  lemma {:induction false} MembersReadBack(
    members: seq<WireMember>, orders: seq<seq<nat>>, acc: seq<WireMember>, x: seq<byte>, limits: Limits, depth: nat)
    requires (forall i :: 0 <= i < |members| ==> members[i].Typed()) && OrdersFor(members, orders)
    ensures var reading := ReadElements(Reader(MembersText(members, orders) + x, depth), |members|, acc,
      MemberElement(limits));
      && (reading.Ok? <==> MembersFit(members, limits, depth))
      && (reading.Ok? ==> reading.value == (acc + members, Reader(x, depth)))
    decreases |members|
  {
    hide ReadMember, MemberText, MemberFits, Permuted;
    if members == [] { assert MembersText(members, orders) + x == x && acc + members == acc; }
    else {
      var rest := MembersText(members[1..], orders[1..]) + x;
      assert MembersText(members, orders) + x == MemberText(members[0], orders[0]) + rest;
      MemberReadsBack(members[0], orders[0], rest, limits, depth);
      MembersReadBack(members[1..], orders[1..], acc + [members[0]], x, limits, depth);
      FitsOneByOne(members, limits, depth);
      assert acc + [members[0]] + members[1..] == acc + members;
    }
  }

  lemma FitsOneByOne(members: seq<WireMember>, limits: Limits, depth: nat)
    requires members != []
    ensures MembersFit(members, limits, depth) <==>
      MemberFits(members[0], limits, depth) && MembersFit(members[1..], limits, depth)
  {
    hide MemberFits;
    assert members == [members[0]] + members[1..];
  }

  // ---- the snapshot --------------------------------------------------------------------------------

  predicate SnapshotFieldFits(s: WireSnapshot, key: nat, limits: Limits, depth: nat) {
    && (key == 3 ==>
      depth < limits.depth && |s.members| <= limits.arrayEntries &&
      MembersFit(s.members, limits, depth + 1))
    && (key == 4 ==> SIGNATURE_LEN <= limits.bytesLen)
  }

  function CollectedSnapshot(s: WireSnapshot, keys: set<nat>): SomeSnapshot {
    SomeSnapshot(
      if 1 in keys then Some(s.sequence) else None, if 2 in keys then Some(s.epoch) else None,
      if 3 in keys then Some(s.members) else None, if 4 in keys then Some(s.signature) else None)
  }

  lemma ListReads(s: WireSnapshot, orders: seq<seq<nat>>, limits: Limits, depth: nat, x: seq<byte>)
    requires s.Typed() && OrdersFor(s.members, orders)
    ensures var reading := ReadArray(Reader(SnapshotValue(s, orders, 3) + x, depth), limits, [], MemberElement(limits));
      (reading.Ok? <==> SnapshotFieldFits(s, 3, limits, depth)) &&
        (reading.Ok? ==> reading.value == (s.members, Reader(x, depth)))
  {
    hide EncodeHead, ReadHead, MembersText, MembersFit, EnterArray, Permuted;
    var body := MembersText(s.members, orders);
    assert SnapshotValue(s, orders, 3) + x == EncodeHead(ARRAY, |s.members|) + (body + x);
    EnterRoundTrip(|s.members|, body + x, depth, limits);
    MembersReadBack(s.members, orders, [], x, limits, depth + 1);
    assert [] + s.members == s.members;
  }

  lemma SnapshotFieldReads(s: WireSnapshot, orders: seq<seq<nat>>, key: nat, limits: Limits, depth: nat, done: set<nat>,
    x: seq<byte>)
    requires s.Typed() && OrdersFor(s.members, orders) && 1 <= key <= 4
    ensures var reading := ReadSnapshotField(Reader(SnapshotValue(s, orders, key) + x, depth), key,
      CollectedSnapshot(s, done), limits);
      (reading.Ok? <==> SnapshotFieldFits(s, key, limits, depth)) &&
      (SnapshotFieldFits(s, key, limits, depth) ==>
        reading.value == (CollectedSnapshot(s, done + {key}), Reader(x, depth)))
  {
    hide EncodeHead, ReadHead, ReadArray, MembersText, MembersFit, Permuted;
    if key == 1 { UnsignedRoundTrip(s.sequence, U64_LIMIT, x, depth); }
    else if key == 2 { UnsignedRoundTrip(s.epoch, U64_LIMIT, x, depth); }
    else if key == 3 { ListReads(s, orders, limits, depth, x); }
    else { StringRoundTrip(BYTES, s.signature, x, depth); }
  }

  // What the configured limits leave room for.
  predicate Within(s: WireSnapshot, limits: Limits) {
    && 1 < limits.depth && 4 <= limits.mapEntries && |s.members| <= limits.arrayEntries &&
      SIGNATURE_LEN <= limits.bytesLen
    && (s.members != [] ==> 2 < limits.depth && 5 <= limits.mapEntries && KEY_LEN <= limits.bytesLen)
    && forall i :: 0 <= i < |s.members| ==> |s.members[i].nickname| <= limits.textBytes
  }

  lemma WithinIsFitting(s: WireSnapshot, limits: Limits)
    ensures Within(s, limits) <==>
      0 < limits.depth && 4 <= limits.mapEntries && forall k :: k in FieldKeys(4) ==> SnapshotFieldFits(s, k, limits, 1)
  {
    assert 3 in FieldKeys(4) && 4 in FieldKeys(4);
    if 0 < limits.depth && 4 <= limits.mapEntries && SnapshotFieldFits(s, 3, limits, 1) &&
      SnapshotFieldFits(s, 4, limits, 1) {
      forall i | 0 <= i < |s.members| ensures |s.members[i].nickname| <= limits.textBytes {
        assert MemberFits(s.members[i], limits, 2);
      }
      if s.members != [] { assert MemberFits(s.members[0], limits, 2); }
    }
  }

  // A snapshot decodes to itself from its entries in whatever order they are written, and those
  // of each member in an order of its own, consuming everything, exactly if it is within the limits.
  lemma {:induction false} SnapshotReadsBack(s: WireSnapshot, keys: seq<nat>, orders: seq<seq<nat>>, limits: Limits)
    requires s.Typed() && Permuted(keys, 4) && OrdersFor(s.members, orders)
    ensures DecodeSnapshot(SnapshotText(s, keys, orders), limits) == Ok(s) <==> Within(s, limits)
    ensures DecodeSnapshot(SnapshotText(s, keys, orders), limits).Ok? ==> Within(s, limits)
  {
    hide EncodeHead, SnapshotValues, KeySet, ReadMap, EntriesText, SnapshotFitting, CollectSnapshot, ReadsField,
      SnapshotEntry, FieldKeys, Within;
    var text := SnapshotText(s, keys, orders);
    PermutedKeys(keys, 4);
    forall k | k in FieldKeys(4)
      ensures ReadsField(SnapshotEntry(limits), SnapshotValues(s, orders), SnapshotFitting(s, limits),
        CollectSnapshot(s), 1, k) {
      SnapshotReadsField(s, orders, limits, k);
    }
    MapReads(keys, 4, [], 0, limits, SnapshotEntry(limits), SnapshotValues(s, orders), SnapshotFitting(s, limits),
      CollectSnapshot(s));
    assert text + [] == text;
    SnapshotCollected(s, limits);
  }

  function SnapshotFitting(s: WireSnapshot, limits: Limits): nat -> bool
  {
    (key: nat) => SnapshotFieldFits(s, key, limits, 1)
  }

  function CollectSnapshot(s: WireSnapshot): set<nat> -> SomeSnapshot { (done: set<nat>) => CollectedSnapshot(s, done) }

  lemma SnapshotReadsField(s: WireSnapshot, orders: seq<seq<nat>>, limits: Limits, k: nat)
    requires s.Typed() && OrdersFor(s.members, orders) && 1 <= k <= 4
    ensures ReadsField(SnapshotEntry(limits), SnapshotValues(s, orders), SnapshotFitting(s, limits), CollectSnapshot(s),
      1, k)
  {
    hide ReadSnapshotField, SnapshotValue, CollectedSnapshot, SnapshotFieldFits, Permuted;
    forall done: set<nat>, y: seq<byte>
      ensures FieldStep(SnapshotEntry(limits), SnapshotValues(s, orders), SnapshotFitting(s, limits),
        CollectSnapshot(s), 1, k,
        done, y) {
      SnapshotFieldReads(s, orders, k, limits, 1, done, y);
    }
  }

  lemma SnapshotCollected(s: WireSnapshot, limits: Limits)
    ensures CollectSnapshot(s)({}) == NO_SNAPSHOT && CompleteSnapshot(CollectSnapshot(s)(FieldKeys(4))) == Ok(s)
    ensures Within(s, limits) <==>
      0 < limits.depth && 4 <= limits.mapEntries && forall k :: k in FieldKeys(4) ==> SnapshotFitting(s, limits)(k)
  {
    hide Within, SnapshotFieldFits, FieldKeys;
    WithinIsFitting(s, limits);
    assert forall k :: SnapshotFitting(s, limits)(k) == SnapshotFieldFits(s, k, limits, 1);
    assert forall k :: 1 <= k <= 4 <==> k in FieldKeys(4);
  }

  // Strict decoding inverts encoding for every snapshot within the limits, and for no other.
  lemma {:induction false} SnapshotRoundTrip(s: WireSnapshot, limits: Limits)
    requires s.Typed()
    ensures DecodeSnapshot(EncodeSnapshot(s), limits) == Ok(s) <==> Within(s, limits)
  {
    hide Permuted, SnapshotText, DecodeSnapshot, Within;
    EncodedKeys();
    SnapshotReadsBack(s, SNAPSHOT_KEYS, InKeyOrder(|s.members|), limits);
  }

  // ---- the decoder as an object -----------------------------------------------------------------------

  class StrictDecoder {
    const limits: Limits
    var rest: seq<byte>
    var depth: nat

    function State(): Reader
      reads this
    {
      Reader(rest, depth)
    }

    constructor (input: seq<byte>, limits: Limits)
      ensures State() == Reader(input, 0) && this.limits == limits
    {
      rest := input;
      depth := 0;
      this.limits := limits;
    }

    // Moves on to where a reading ended.
    method Advance<T>(reading: Reading<T>) returns (r: Result<T, CborError>)
      modifies this
      ensures match reading
        case Ok((v, r1)) => r == Ok(v) && State() == r1
        case Err(e) => r == Err(e) && State() == old(State())
    {
      match reading
      case Err(e) => return Err(e);
      case Ok((v, r1)) =>
        rest, depth := r1.rest, r1.depth;
        return Ok(v);
    }

    // One map of a member. The nesting depth is restored on every path.
    method DecodeMember() returns (r: Result<WireMember, CborError>)
      modifies this
      ensures match ReadMember(old(State()), limits)
        case Ok((m, r1)) => r == Ok(m) && State() == r1
        case Err(e) => r == Err(e)
      ensures depth == old(depth)
    {
      hide ReadHead, ReadMemberField;
      var declared := Advance(EnterMap(State(), limits));
      if declared.Err? { return Err(declared.error); }
      var p := NO_MEMBER;
      var seen: seq<nat> := [];
      var i := 0;
      ghost var start := State();
      while i < declared.value
        invariant 0 <= i <= declared.value && depth == old(depth) + 1
        invariant ReadEntries(start, declared.value, [], NO_MEMBER, MemberEntry(limits)) ==
          ReadEntries(State(), declared.value - i, seen, p, MemberEntry(limits))
      {
        MemberFieldKeepsDepth(limits);
        ScalarsKeepDepth(State(), limits);
        var key := Advance(ReadU64(State()));
        if key.Err? { depth := depth - 1; return Err(key.error); }
        if key.value in seen { depth := depth - 1; return Err(DuplicateMapKey(key.value)); }
        seen := seen + [key.value];
        assert KeepsDepth(State(), MemberEntry(limits)(State(), key.value, p));
        var field := Advance(ReadMemberField(State(), key.value, p, limits));
        if field.Err? { depth := depth - 1; return Err(field.error); }
        p := field.value;
        i := i + 1;
      }
      depth := depth - 1;
      return CompleteMember(p);
    }

    // The array of members under key 3.
    method DecodeMembers() returns (r: Result<seq<WireMember>, CborError>)
      modifies this
      ensures match ReadArray(old(State()), limits, [], MemberElement(limits))
        case Ok((ms, r1)) => r == Ok(ms) && State() == r1
        case Err(e) => r == Err(e)
      ensures depth == old(depth)
    {
      hide ReadHead, ReadMember;
      var declared := Advance(EnterArray(State(), limits));
      if declared.Err? { return Err(declared.error); }
      var members: seq<WireMember> := [];
      var i := 0;
      ghost var start := State();
      while i < declared.value
        invariant 0 <= i <= declared.value && depth == old(depth) + 1
        invariant ReadElements(start, declared.value, [], MemberElement(limits)) ==
          ReadElements(State(), declared.value - i, members, MemberElement(limits))
      {
        var m := DecodeMember();
        if m.Err? { depth := depth - 1; return Err(m.error); }
        members := members + [m.value];
        i := i + 1;
      }
      depth := depth - 1;
      return Ok(members);
    }

    method DecodeField(key: nat, p: SomeSnapshot) returns (r: Result<SomeSnapshot, CborError>)
      modifies this
      ensures match ReadSnapshotField(old(State()), key, p, limits)
        case Ok((q, r1)) => r == Ok(q) && State() == r1
        case Err(e) => r == Err(e)
      ensures depth == old(depth)
    {
      hide ReadHead, ReadArray;
      ScalarsKeepDepth(State(), limits);
      if key == 1 || key == 2 {
        var v := Advance(ReadU64(State()));
        if v.Err? { return Err(v.error); }
        return Ok(if key == 1 then p.(sequence := Some(v.value)) else p.(epoch := Some(v.value)));
      }
      if key == 3 {
        var members := DecodeMembers();
        if members.Err? { return Err(members.error); }
        return Ok(p.(members := Some(members.value)));
      }
      if key == 4 {
        var v := Advance(ReadBytes(State(), limits));
        if v.Err? { return Err(v.error); }
        if |v.value| != SIGNATURE_LEN { return Err(InvalidField(4)); }
        return Ok(p.(signature := Some(v.value)));
      }
      return Err(UnknownField(key));
    }

    method DecodeSnapshotMap() returns (r: Result<WireSnapshot, CborError>)
      modifies this
      ensures match ReadSnapshot(old(State()), limits)
        case Ok((s, r1)) => r == Ok(s) && State() == r1
        case Err(e) => r == Err(e)
      ensures depth == old(depth)
    {
      hide ReadHead, ReadSnapshotField;
      var declared := Advance(EnterMap(State(), limits));
      if declared.Err? { return Err(declared.error); }
      var p := NO_SNAPSHOT;
      var seen: seq<nat> := [];
      var i := 0;
      ghost var start := State();
      while i < declared.value
        invariant 0 <= i <= declared.value && depth == old(depth) + 1
        invariant ReadEntries(start, declared.value, [], NO_SNAPSHOT, SnapshotEntry(limits)) ==
          ReadEntries(State(), declared.value - i, seen, p, SnapshotEntry(limits))
      {
        ScalarsKeepDepth(State(), limits);
        var key := Advance(ReadU64(State()));
        if key.Err? { depth := depth - 1; return Err(key.error); }
        if key.value in seen { depth := depth - 1; return Err(DuplicateMapKey(key.value)); }
        seen := seen + [key.value];
        var field := DecodeField(key.value, p);
        if field.Err? { depth := depth - 1; return Err(field.error); }
        p := field.value;
        i := i + 1;
      }
      depth := depth - 1;
      return CompleteSnapshot(p);
    }
  }

  lemma MemberFieldKeepsDepth(limits: Limits)
    ensures forall r, key, acc :: KeepsDepth(r, MemberEntry(limits)(r, key, acc))
  {
    hide ReadU64, ReadU8, ReadText, ReadBytes, ReadBool;
    forall r, key, acc ensures KeepsDepth(r, MemberEntry(limits)(r, key, acc)) { ScalarsKeepDepth(r, limits); }
  }

  // ---- what was accepted had every field ------------------------------------------------------------

  // How a schema with fields 1 to `n` tells which of them it has read.
  type Presence<!A> = (A, nat) -> bool

  predicate FilledBy<A>(p: A, keys: seq<nat>, n: nat, present: Presence<A>) {
    && (forall i :: 0 <= i < |keys| ==> 1 <= keys[i] <= n)
    && (forall k :: 1 <= k <= n && present(p, k) ==> k in KeySet(keys))
  }

  // An entry is read for a field of the schema and for no other field.
  ghost predicate FillsOne<A(!new)>(entry: Entry<A>, n: nat, present: Presence<A>) {
    forall r: Reader, key: nat, acc: A :: FilledStep(entry, n, present, r, key, acc)
  }

  ghost predicate FilledStep<A(!new)>(entry: Entry<A>, n: nat, present: Presence<A>, r: Reader, key: nat, acc: A) {
    var reading := entry(r, key, acc);
    reading.Ok? ==> 1 <= key <= n && forall k :: 1 <= k <= n && present(reading.value.0, k) ==>
      k == key || present(acc, k)
  }

  lemma {:induction false} CollectedFromKeys<A(!new)>(
    r: Reader, declared: nat, seen: seq<nat>, acc: A, entry: Entry<A>, n: nat, present: Presence<A>)
    requires FilledBy(acc, seen, n, present) && FillsOne(entry, n, present)
    ensures var out := ReadEntries(r, declared, seen, acc, entry);
      out.Ok? ==> FilledBy(out.value.0, out.value.2, n, present)
    decreases declared
  {
    hide ReadU64, KeySet;
    if declared > 0 && ReadU64(r).Ok? {
      var (key, r1) := ReadU64(r).value;
      assert FilledStep(entry, n, present, r1, key, acc);
      if key !in seen && entry(r1, key, acc).Ok? {
        var (acc1, r2) := entry(r1, key, acc).value;
        KeySetGrows(seen, key);
        CollectedFromKeys(r2, declared - 1, seen + [key], acc1, entry, n, present);
      }
    }
  }

  // If all fields were read, the map had one entry for each of them.
  lemma AllFieldsOnce<A(!new)>(r: Reader, declared: nat, acc: A, entry: Entry<A>, n: nat, present: Presence<A>)
    requires FilledBy(acc, [], n, present) && FillsOne(entry, n, present)
    ensures var out := ReadEntries(r, declared, [], acc, entry);
      out.Ok? && (forall k :: 1 <= k <= n ==> present(out.value.0, k)) ==> declared == n && Permuted(out.value.2, n)
  {
    hide FieldKeys, FillsOne;
    var out := ReadEntries(r, declared, [], acc, entry);
    AcceptedKeysAreDistinct(r, declared, [], acc, entry);
    CollectedFromKeys(r, declared, [], acc, entry, n, present);
    if out.Ok? && forall k :: 1 <= k <= n ==> present(out.value.0, k) {
      KeyCount(out.value.2);
      assert KeySet(out.value.2) == FieldKeys(n);
    }
  }

  function MemberPresence(): Presence<SomeMember> {
    (p: SomeMember, k: nat) =>
      (k == 1 && p.id.Some?) || (k == 2 && p.nickname.Some?) || (k == 3 && p.color.Some?) ||
        (k == 4 && p.isHost.Some?) ||
      (k == 5 && p.ed25519.Some?)
  }

  function SnapshotPresence(): Presence<SomeSnapshot> {
    (p: SomeSnapshot, k: nat) =>
      (k == 1 && p.sequence.Some?) || (k == 2 && p.epoch.Some?) || (k == 3 && p.members.Some?) ||
        (k == 4 && p.signature.Some?)
  }

  lemma EntriesFillOne(limits: Limits)
    ensures FillsOne(MemberEntry(limits), 5, MemberPresence())
    ensures FillsOne(SnapshotEntry(limits), 4, SnapshotPresence())
  {
    hide ReadU64, ReadU8, ReadText, ReadBytes, ReadBool, ReadArray;
  }

  // What is accepted had every field exactly once, and nothing else.
  lemma {:induction false} AcceptedHasEveryField(r: Reader, limits: Limits)
    requires ReadMember(r, limits).Ok?
    ensures EnterMap(r, limits).Ok? && EnterMap(r, limits).value.0 == 5
    ensures var out := ReadEntries(EnterMap(r, limits).value.1, 5, [], NO_MEMBER, MemberEntry(limits));
      out.Ok? && Permuted(out.value.2, 5)
  {
    hide ReadHead, ReadMemberField, EnterMap, FieldKeys, ReadEntries, FillsOne, Permuted;
    var (declared, r1) := EnterMap(r, limits).value;
    EntriesFillOne(limits);
    AllFieldsOnce(r1, declared, NO_MEMBER, MemberEntry(limits), 5, MemberPresence());
  }

  lemma {:induction false} AcceptedSnapshotHasEveryField(r: Reader, limits: Limits)
    requires ReadSnapshot(r, limits).Ok?
    ensures EnterMap(r, limits).Ok? && EnterMap(r, limits).value.0 == 4
    ensures var out := ReadEntries(EnterMap(r, limits).value.1, 4, [], NO_SNAPSHOT, SnapshotEntry(limits));
      out.Ok? && Permuted(out.value.2, 4)
  {
    hide ReadHead, ReadSnapshotField, EnterMap, FieldKeys, ReadEntries, FillsOne, Permuted;
    var (declared, r1) := EnterMap(r, limits).value;
    EntriesFillOne(limits);
    AllFieldsOnce(r1, declared, NO_SNAPSHOT, SnapshotEntry(limits), 4, SnapshotPresence());
  }

  lemma MemberKeepsDepth(r: Reader, limits: Limits)
    ensures KeepsDepth(r, ReadMember(r, limits))
  {
    hide ReadMap, ReadMemberField;
    MemberFieldKeepsDepth(limits);
    MapKeepsDepth(r, limits, NO_MEMBER, MemberEntry(limits));
  }

  lemma SnapshotFieldKeepsDepth(limits: Limits)
    ensures forall r, key, acc :: KeepsDepth(r, SnapshotEntry(limits)(r, key, acc))
  {
    hide ReadU64, ReadBytes, ReadArray, ReadMember;
    forall r, acc ensures KeepsDepth(r, MemberElement(limits)(r, acc)) { MemberKeepsDepth(r, limits); }
    forall r, key, acc ensures KeepsDepth(r, SnapshotEntry(limits)(r, key, acc)) {
      ScalarsKeepDepth(r, limits);
      ArrayKeepsDepth(r, limits, [], MemberElement(limits));
    }
  }

  // Whatever the input, a snapshot that is read leaves the nesting depth as it found it.
  lemma {:induction false} SnapshotKeepsDepth(r: Reader, limits: Limits)
    ensures KeepsDepth(r, ReadSnapshot(r, limits))
  {
    hide ReadMap, ReadSnapshotField;
    SnapshotFieldKeepsDepth(limits);
    MapKeepsDepth(r, limits, NO_SNAPSHOT, SnapshotEntry(limits));
  }
}
