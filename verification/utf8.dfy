// Which byte strings are text: exactly the UTF-8 encodings of Unicode scalar values (RFC 3629,
// section 3).
module Utf8 {
  import opened Bytes
  import opened Cbor

  predicate IsScalar(v: nat) { v < 0xd800 || 0xe000 <= v < 0x11_0000 }

  function ScalarBytes(v: nat): seq<byte>
    requires IsScalar(v)
  {
    if v < 0x80 then [v]
    else if v < 0x800 then [0xc0 + v / 64, 0x80 + v % 64]
    else if v < 0x1_0000 then [0xe0 + v / 4096, 0x80 + v / 64 % 64, 0x80 + v % 64]
    else [0xf0 + v / 262144, 0x80 + v / 4096 % 64, 0x80 + v / 64 % 64, 0x80 + v % 64]
  }

  predicate AllScalars(vs: seq<nat>) { forall i :: 0 <= i < |vs| ==> IsScalar(vs[i]) }

  function TextBytes(vs: seq<nat>): seq<byte>
    requires AllScalars(vs)
  {
    if vs == [] then [] else ScalarBytes(vs[0]) + TextBytes(vs[1..])
  }

  lemma ScalarIsWellFormed(v: nat, rest: seq<byte>)
    requires IsScalar(v) && WellFormed(rest)
    ensures WellFormed(ScalarBytes(v) + rest)
  {
    var s := ScalarBytes(v) + rest;
    var n := |ScalarBytes(v)|;
    assert s[n..] == rest;
    if 0x800 <= v < 0x1_0000 { ThreeBytes(v); }
    if 0x1_0000 <= v { FourBytes(v); }
  }

  lemma ThreeBytes(v: nat)
    requires IsScalar(v) && 0x800 <= v < 0x1_0000
    ensures 0xe0 <= 0xe0 + v / 4096 <= 0xef
    ensures v / 4096 == 0 ==> v / 64 % 64 >= 0x20
    ensures v / 4096 == 0xd ==> v / 64 % 64 < 0x20
  {
  }

  lemma FourBytes(v: nat)
    requires IsScalar(v) && 0x1_0000 <= v
    ensures 0xf0 <= 0xf0 + v / 262144 <= 0xf4
    ensures v / 262144 == 0 ==> v / 4096 % 64 >= 0x10
    ensures v / 262144 == 4 ==> v / 4096 % 64 < 0x10
  {
  }

  lemma {:induction false} TextIsWellFormed(vs: seq<nat>)
    requires AllScalars(vs)
    ensures WellFormed(TextBytes(vs))
  {
    hide ScalarBytes;
    if vs != [] {
      TextIsWellFormed(vs[1..]);
      ScalarIsWellFormed(vs[0], TextBytes(vs[1..]));
    }
  }

  lemma TwoDigits(a: nat, b: nat) returns (v: nat)
    requires 2 <= a < 32 && b < 64
    ensures IsScalar(v) && ScalarBytes(v) == [0xc0 + a, 0x80 + b]
  {
    v := 64 * a + b;
  }

  lemma ThreeDigits(a: nat, b: nat, c: nat) returns (v: nat)
    requires a < 16 && b < 64 && c < 64 && (a == 0 ==> b >= 0x20) && (a == 0xd ==> b < 0x20)
    ensures IsScalar(v) && ScalarBytes(v) == [0xe0 + a, 0x80 + b, 0x80 + c]
  {
    v := 4096 * a + 64 * b + c;
    Digits64(64 * a + b, c);
    Digits64(a, b);
    assert v / 4096 == a;
  }

  lemma FourDigits(a: nat, b: nat, c: nat, d: nat) returns (v: nat)
    requires a <= 4 && b < 64 && c < 64 && d < 64 && (a == 0 ==> b >= 0x10) && (a == 4 ==> b < 0x10)
    ensures IsScalar(v) && ScalarBytes(v) == [0xf0 + a, 0x80 + b, 0x80 + c, 0x80 + d]
  {
    v := 262144 * a + 4096 * b + 64 * c + d;
    Digits64(4096 * a + 64 * b + c, d);
    Digits64(64 * a + b, c);
    Digits64(a, b);
    assert v / 4096 == 64 * a + b;
    assert v / 262144 == a;
  }

  lemma Digits64(high: nat, low: nat)
    requires low < 64
    ensures (64 * high + low) / 64 == high && (64 * high + low) % 64 == low
  {
  }

  // The scalar that a well-formed string starts with, and how many bytes it takes.
  lemma Leading(s: seq<byte>) returns (v: nat, n: nat)
    requires s != [] && WellFormed(s)
    ensures 1 <= n <= |s| && IsScalar(v) && ScalarBytes(v) == s[..n] && WellFormed(s[n..])
  {
    hide ScalarBytes;
    if s[0] < 0x80 { v, n := s[0], 1; OneByte(v); }
    else if s[0] <= 0xdf { v := TwoDigits(s[0] - 0xc0, s[1] - 0x80); n := 2; }
    else if s[0] <= 0xef { v := ThreeDigits(s[0] - 0xe0, s[1] - 0x80, s[2] - 0x80); n := 3; }
    else { v := FourDigits(s[0] - 0xf0, s[1] - 0x80, s[2] - 0x80, s[3] - 0x80); n := 4; }
  }

  lemma OneByte(v: nat)
    requires v < 0x80
    ensures ScalarBytes(v) == [v]
  {
  }

  lemma {:induction false} WellFormedIsText(s: seq<byte>) returns (vs: seq<nat>)
    requires WellFormed(s)
    ensures AllScalars(vs) && s == TextBytes(vs)
    decreases |s|
  {
    hide ScalarBytes, WellFormed;
    if s == [] { vs := []; }
    else {
      var v, n := Leading(s);
      var more := WellFormedIsText(s[n..]);
      vs := [v] + more;
      assert vs[1..] == more;
      assert s == s[..n] + s[n..];
    }
  }

  // The reader takes exactly the encodings of scalar values for text.
  lemma {:induction false} WellFormedExactly(s: seq<byte>)
    ensures WellFormed(s) <==> exists vs: seq<nat> :: AllScalars(vs) && s == TextBytes(vs)
  {
    hide WellFormed, TextBytes;
    if WellFormed(s) { var vs := WellFormedIsText(s); }
    forall vs: seq<nat> | AllScalars(vs) && s == TextBytes(vs) ensures WellFormed(s) { TextIsWellFormed(vs); }
  }
}
