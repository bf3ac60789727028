// The strict CBOR reader (src/protocol/strict.rs over RFC 8949, section 3): heads, integers,
// strings and booleans, and the two container loops with their limits.
module Cbor {
  import opened Wrappers
  import opened Bytes

  datatype Limits = Limits(depth: nat, mapEntries: nat, arrayEntries: nat, textBytes: nat, bytesLen: nat)

  datatype CborError =
    | Malformed | IndefiniteNotAllowed | NestingTooDeep | MapTooLarge(declared: nat)
    | ArrayTooLarge(declared: nat) | DuplicateMapKey(key: nat) | TextTooLong(length: nat)
    | BytesTooLong(length: nat) | TrailingData
    | InvalidField(field: nat) | UnknownField(key: nat) | MissingField(field: nat)

  // What is still unread, and how many containers are open.
  datatype Reader = Reader(rest: seq<byte>, depth: nat)

  type Reading<+T> = Result<(T, Reader), CborError>

  const UNSIGNED: nat := 0
  const BYTES: nat := 2
  const TEXT: nat := 3
  const ARRAY: nat := 4
  const MAP: nat := 5

  // ---- heads -------------------------------------------------------------------------

  datatype Head = Head(major: nat, argument: Option<nat>)

  // The bytes that follow the first byte of a head, by its low five bits.
  function ArgumentWidth(info: nat): Option<nat> {
    if info < 24 then Some(0)
    else if info == 24 then Some(1)
    else if info == 25 then Some(2)
    else if info == 26 then Some(4)
    else if info == 27 then Some(8)
    else None
  }

  // A head with low bits 31 has no argument: it opens an indefinite-length item.
  function ReadHead(s: seq<byte>): Result<(Head, seq<byte>), CborError> {
    if s == [] then Err(Malformed)
    else
      var major := s[0] / 32;
      var info := s[0] % 32;
      if info == 31 then Ok((Head(major, None), s[1..]))
      else match ArgumentWidth(info)
        case None => Err(Malformed)
        case Some(width) =>
          if |s| < 1 + width then Err(Malformed)
          else if width == 0 then Ok((Head(major, Some(info)), s[1..]))
          else Ok((Head(major, Some(FromBigEndian(s[1..1 + width]))), s[1 + width..]))
  }

  // The shortest head.
  function EncodeHead(major: nat, n: nat): seq<byte>
    requires major < 8
  {
    if n < 24 then [32 * major + n]
    else if n < 0x100 then [32 * major + 24] + ToBigEndian(n, 1)
    else if n < 0x1_0000 then [32 * major + 25] + ToBigEndian(n, 2)
    else if n < 0x1_0000_0000 then [32 * major + 26] + ToBigEndian(n, 4)
    else [32 * major + 27] + ToBigEndian(n, 8)
  }

  const U64_LIMIT: nat := 0x1_0000_0000_0000_0000

  lemma Widths()
    ensures Pow256(1) == 0x100 && Pow256(2) == 0x1_0000 && Pow256(4) == 0x1_0000_0000 && Pow256(8) == U64_LIMIT
  {
    assert Pow256(1) == 256 * Pow256(0);
    assert Pow256(2) == 256 * Pow256(1);
    assert Pow256(3) == 256 * Pow256(2);
    assert Pow256(4) == 256 * Pow256(3);
    assert Pow256(5) == 256 * Pow256(4);
    assert Pow256(6) == 256 * Pow256(5);
    assert Pow256(7) == 256 * Pow256(6);
    assert Pow256(8) == 256 * Pow256(7);
  }

  lemma WideHead(major: nat, info: nat, width: nat, n: nat, x: seq<byte>)
    requires major < 8 && 24 <= info <= 27 && ArgumentWidth(info) == Some(width) && n < Pow256(width)
    ensures ReadHead([32 * major + info] + ToBigEndian(n, width) + x) == Ok((Head(major, Some(n)), x))
  {
    hide ToBigEndian, FromBigEndian, Pow256;
    var s := [32 * major + info] + ToBigEndian(n, width) + x;
    assert s[0] / 32 == major && s[0] % 32 == info;
    assert s[1..1 + width] == ToBigEndian(n, width);
    assert s[1 + width..] == x;
    FromToBigEndian(n, width);
  }

  lemma {:induction false} HeadRoundTrip(major: nat, n: nat, x: seq<byte>)
    requires major < 8 && n < U64_LIMIT
    ensures ReadHead(EncodeHead(major, n) + x) == Ok((Head(major, Some(n)), x))
  {
    hide ToBigEndian, FromBigEndian, Pow256, ReadHead;
    Widths();
    if n < 24 { ShortHead(major, n, x); }
    else if n < 0x100 { WideHead(major, 24, 1, n, x); }
    else if n < 0x1_0000 { WideHead(major, 25, 2, n, x); }
    else if n < 0x1_0000_0000 { WideHead(major, 26, 4, n, x); }
    else { WideHead(major, 27, 8, n, x); }
  }

  lemma ShortHead(major: nat, n: nat, x: seq<byte>)
    requires major < 8 && n < 24
    ensures ReadHead([32 * major + n] + x) == Ok((Head(major, Some(n)), x))
  {
    hide FromBigEndian;
    var s := [32 * major + n] + x;
    assert s[0] / 32 == major && s[0] % 32 == n;
    assert s[1..] == x;
  }

  // ---- scalars -------------------------------------------------------------------------

  function ReadUnsigned(r: Reader, bound: nat): Reading<nat> {
    match ReadHead(r.rest)
    case Err(error) => Err(error)
    case Ok((head, rest)) =>
      if head.major != UNSIGNED || head.argument.None? || head.argument.value >= bound then Err(Malformed)
      else Ok((head.argument.value, r.(rest := rest)))
  }

  function ReadU64(r: Reader): Reading<nat> { ReadUnsigned(r, U64_LIMIT) }

  function ReadU8(r: Reader): Reading<nat> { ReadUnsigned(r, 256) }

  function ReadBool(r: Reader): Reading<bool> {
    if r.rest == [] || (r.rest[0] != 0xf4 && r.rest[0] != 0xf5) then Err(Malformed)
    else Ok((r.rest[0] == 0xf5, r.(rest := r.rest[1..])))
  }

  // A definite-length string: its bytes, whatever their number.
  function ReadString(r: Reader, major: nat): Reading<seq<byte>> {
    match ReadHead(r.rest)
    case Err(error) => Err(error)
    case Ok((head, rest)) =>
      if head.major != major || head.argument.None? || head.argument.value > |rest| then Err(Malformed)
      else Ok((rest[..head.argument.value], r.(rest := rest[head.argument.value..])))
  }

  function ReadBytes(r: Reader, limits: Limits): Reading<seq<byte>> {
    match ReadString(r, BYTES)
    case Err(error) => Err(error)
    case Ok((data, r1)) => if |data| > limits.bytesLen then Err(BytesTooLong(|data|)) else Ok((data, r1))
  }

  // Ill-formed UTF-8 is malformed; only then is the length looked at.
  function ReadText(r: Reader, limits: Limits): Reading<seq<byte>> {
    match ReadString(r, TEXT)
    case Err(error) => Err(error)
    case Ok((data, r1)) =>
      if !WellFormed(data) then Err(Malformed)
      else if |data| > limits.textBytes then Err(TextTooLong(|data|))
      else Ok((data, r1))
  }

  predicate Continues(s: seq<byte>, i: nat) { i < |s| && 0x80 <= s[i] < 0xc0 }

  // Well-formed UTF-8: RFC 3629, section 4.
  predicate WellFormed(s: seq<byte>)
    decreases |s|
  {
    s == [] ||
    (s[0] < 0x80 && WellFormed(s[1..])) ||
    (0xc2 <= s[0] <= 0xdf && Continues(s, 1) && WellFormed(s[2..])) ||
    (0xe0 <= s[0] <= 0xef && Continues(s, 1) && Continues(s, 2) && (s[0] == 0xe0 ==> s[1] >= 0xa0) &&
     (s[0] == 0xed ==> s[1] < 0xa0) && WellFormed(s[3..])) ||
    (0xf0 <= s[0] <= 0xf4 && Continues(s, 1) && Continues(s, 2) && Continues(s, 3) && (s[0] == 0xf0 ==> s[1] >= 0x90) &&
     (s[0] == 0xf4 ==> s[1] < 0x90) && WellFormed(s[4..]))
  }

  function EncodeBool(b: bool): seq<byte> { [if b then 0xf5 else 0xf4] }

  function EncodeUnsigned(n: nat): seq<byte> { EncodeHead(UNSIGNED, n) }

  function EncodeBytes(data: seq<byte>): seq<byte> { EncodeHead(BYTES, |data|) + data }

  function EncodeText(data: seq<byte>): seq<byte> { EncodeHead(TEXT, |data|) + data }

  lemma UnsignedRoundTrip(n: nat, bound: nat, x: seq<byte>, depth: nat)
    requires n < bound <= U64_LIMIT
    ensures ReadUnsigned(Reader(EncodeUnsigned(n) + x, depth), bound) == Ok((n, Reader(x, depth)))
  {
    hide EncodeHead, ReadHead;
    HeadRoundTrip(UNSIGNED, n, x);
  }

  lemma BoolRoundTrip(b: bool, x: seq<byte>, depth: nat)
    ensures ReadBool(Reader(EncodeBool(b) + x, depth)) == Ok((b, Reader(x, depth)))
  {
    assert (EncodeBool(b) + x)[1..] == x;
  }

  lemma StringRoundTrip(major: nat, data: seq<byte>, x: seq<byte>, depth: nat)
    requires major < 8 && |data| < U64_LIMIT
    ensures ReadString(Reader(EncodeHead(major, |data|) + data + x, depth), major) == Ok((data, Reader(x, depth)))
  {
    hide EncodeHead, ReadHead;
    HeadRoundTrip(major, |data|, data + x);
    assert EncodeHead(major, |data|) + data + x == EncodeHead(major, |data|) + (data + x);
    assert (data + x)[..|data|] == data && (data + x)[|data|..] == x;
  }

  // ---- containers -----------------------------------------------------------------------

  // A definite-length map within the limits, opened: the number of its entries.
  function EnterMap(r: Reader, limits: Limits): Reading<nat> {
    match ReadHead(r.rest)
    case Err(error) => Err(error)
    case Ok((head, rest)) =>
      if head.major != MAP then Err(Malformed)
      else if head.argument.None? then Err(IndefiniteNotAllowed)
      else if r.depth >= limits.depth then Err(NestingTooDeep)
      else if head.argument.value > limits.mapEntries then Err(MapTooLarge(head.argument.value))
      else Ok((head.argument.value, Reader(rest, r.depth + 1)))
  }

  function EnterArray(r: Reader, limits: Limits): Reading<nat> {
    match ReadHead(r.rest)
    case Err(error) => Err(error)
    case Ok((head, rest)) =>
      if head.major != ARRAY then Err(Malformed)
      else if head.argument.None? then Err(IndefiniteNotAllowed)
      else if r.depth >= limits.depth then Err(NestingTooDeep)
      else if head.argument.value > limits.arrayEntries then Err(ArrayTooLarge(head.argument.value))
      else Ok((head.argument.value, Reader(rest, r.depth + 1)))
  }

  function Leave(r: Reader): Reader { r.(depth := if r.depth == 0 then 0 else r.depth - 1) }

  // How a schema reads the value of one map entry into what it collected so far, and one
  // element of an array.
  type Entry<!A> = (Reader, nat, A) -> Reading<A>
  type Element<!A> = (Reader, A) -> Reading<A>

  // `declared` entries, each under a key not seen before.
  function ReadEntries<A>(r: Reader, declared: nat, seen: seq<nat>, acc: A, entry: Entry<A>)
    : (out: Result<(A, Reader, seq<nat>), CborError>)
    decreases declared
  {
    if declared == 0 then Ok((acc, r, seen))
    else match ReadU64(r)
      case Err(error) => Err(error)
      case Ok((key, r1)) =>
        if key in seen then Err(DuplicateMapKey(key))
        else match entry(r1, key, acc)
          case Err(error) => Err(error)
          case Ok((acc1, r2)) => ReadEntries(r2, declared - 1, seen + [key], acc1, entry)
  }

  function ReadElements<A>(r: Reader, declared: nat, acc: A, element: Element<A>): Reading<A>
    decreases declared
  {
    if declared == 0 then Ok((acc, r))
    else match element(r, acc)
      case Err(error) => Err(error)
      case Ok((acc1, r1)) => ReadElements(r1, declared - 1, acc1, element)
  }

  function ReadMap<A>(r: Reader, limits: Limits, acc: A, entry: Entry<A>): Reading<A> {
    match EnterMap(r, limits)
    case Err(error) => Err(error)
    case Ok((declared, r1)) =>
      match ReadEntries(r1, declared, [], acc, entry)
      case Err(error) => Err(error)
      case Ok((acc1, r2, seen)) => Ok((acc1, Leave(r2)))
  }

  function ReadArray<A>(r: Reader, limits: Limits, acc: A, element: Element<A>): Reading<A> {
    match EnterArray(r, limits)
    case Err(error) => Err(error)
    case Ok((declared, r1)) =>
      match ReadElements(r1, declared, acc, element)
      case Err(error) => Err(error)
      case Ok((acc1, r2)) => Ok((acc1, Leave(r2)))
  }

  // The message value must be all there is.
  function Finished<T>(reading: Reading<T>): Result<T, CborError> {
    match reading
    case Err(error) => Err(error)
    case Ok((value, r)) => if r.rest == [] then Ok(value) else Err(TrailingData)
  }

  lemma {:induction false} EnterRoundTrip(n: nat, x: seq<byte>, depth: nat, limits: Limits)
    requires n < U64_LIMIT
    ensures EnterMap(Reader(EncodeHead(MAP, n) + x, depth), limits) ==
      if depth >= limits.depth then Err(NestingTooDeep)
      else if n > limits.mapEntries then Err(MapTooLarge(n))
      else Ok((n, Reader(x, depth + 1)))
    ensures EnterArray(Reader(EncodeHead(ARRAY, n) + x, depth), limits) ==
      if depth >= limits.depth then Err(NestingTooDeep)
      else if n > limits.arrayEntries then Err(ArrayTooLarge(n))
      else Ok((n, Reader(x, depth + 1)))
  {
    hide EncodeHead, ReadHead;
    HeadRoundTrip(MAP, n, x);
    HeadRoundTrip(ARRAY, n, x);
  }

  // ---- what holds of every schema -----------------------------------------------------------

  predicate NoDuplicates(s: seq<nat>) { forall i, j :: 0 <= i < j < |s| ==> s[i] != s[j] }

  // A map that is accepted never repeats a key.
  lemma {:induction false} AcceptedKeysAreDistinct<A>(r: Reader, declared: nat, seen: seq<nat>, acc: A, entry: Entry<A>)
    requires NoDuplicates(seen)
    ensures var out := ReadEntries(r, declared, seen, acc, entry);
      out.Ok? ==> NoDuplicates(out.value.2) && |out.value.2| == |seen| + declared && out.value.2[..|seen|] == seen
    decreases declared
  {
    hide ReadU64;
    if declared > 0 && ReadU64(r).Ok? {
      var (key, r1) := ReadU64(r).value;
      if key !in seen && entry(r1, key, acc).Ok? {
        var (acc1, r2) := entry(r1, key, acc).value;
        AcceptedKeysAreDistinct(r2, declared - 1, seen + [key], acc1, entry);
      }
    }
  }

  predicate KeepsDepth<T>(r: Reader, reading: Reading<T>) { reading.Ok? ==> reading.value.1.depth == r.depth }

  // Reading a container leaves the nesting depth as it was, if reading its items does.
  lemma {:induction false} EntriesKeepDepth<A>(r: Reader, declared: nat, seen: seq<nat>, acc: A, entry: Entry<A>)
    requires forall r, key, acc :: KeepsDepth(r, entry(r, key, acc))
    ensures var out := ReadEntries(r, declared, seen, acc, entry); out.Ok? ==> out.value.1.depth == r.depth
    decreases declared
  {
    if declared > 0 && ReadU64(r).Ok? {
      var (key, r1) := ReadU64(r).value;
      if key !in seen && entry(r1, key, acc).Ok? {
        var (acc1, r2) := entry(r1, key, acc).value;
        assert KeepsDepth(r1, entry(r1, key, acc));
        EntriesKeepDepth(r2, declared - 1, seen + [key], acc1, entry);
      }
    }
  }

  lemma {:induction false} ElementsKeepDepth<A>(r: Reader, declared: nat, acc: A, element: Element<A>)
    requires forall r, acc :: KeepsDepth(r, element(r, acc))
    ensures KeepsDepth(r, ReadElements(r, declared, acc, element))
    decreases declared
  {
    if declared > 0 && element(r, acc).Ok? {
      assert KeepsDepth(r, element(r, acc));
      ElementsKeepDepth(element(r, acc).value.1, declared - 1, element(r, acc).value.0, element);
    }
  }

  lemma {:induction false} MapKeepsDepth<A>(r: Reader, limits: Limits, acc: A, entry: Entry<A>)
    requires forall r, key, acc :: KeepsDepth(r, entry(r, key, acc))
    ensures KeepsDepth(r, ReadMap(r, limits, acc, entry))
  {
    hide ReadHead;
    if EnterMap(r, limits).Ok? {
      var (declared, r1) := EnterMap(r, limits).value;
      EntriesKeepDepth(r1, declared, [], acc, entry);
    }
  }

  lemma {:induction false} ArrayKeepsDepth<A>(r: Reader, limits: Limits, acc: A, element: Element<A>)
    requires forall r, acc :: KeepsDepth(r, element(r, acc))
    ensures KeepsDepth(r, ReadArray(r, limits, acc, element))
  {
    hide ReadHead;
    if EnterArray(r, limits).Ok? {
      var (declared, r1) := EnterArray(r, limits).value;
      ElementsKeepDepth(r1, declared, acc, element);
    }
  }

  lemma ScalarsKeepDepth(r: Reader, limits: Limits)
    ensures KeepsDepth(r, ReadU64(r)) && KeepsDepth(r, ReadU8(r)) && KeepsDepth(r, ReadBool(r))
    ensures KeepsDepth(r, ReadBytes(r, limits)) && KeepsDepth(r, ReadText(r, limits))
  {
    hide ReadHead;
  }
}
