// Bytes and big-endian integers, as `to_be_bytes` and `from_be_bytes` produce and read them.
module Bytes {
  type byte = b: int | 0 <= b < 256

  function Pow256(n: nat): (p: nat)
    ensures p >= 1
  {
    if n == 0 then 1 else 256 * Pow256(n - 1)
  }

  // The value of a big-endian byte string.
  function FromBigEndian(s: seq<byte>): (v: nat)
    ensures v < Pow256(|s|)
  {
    if s == [] then 0 else
      256 * FromBigEndian(s[..|s| - 1]) + s[|s| - 1]
  }

  // The last `width` base-256 digits of `value`, most significant first: `as u32` and
  // friends truncate, so a value that does not fit loses its high digits.
  function ToBigEndian(value: nat, width: nat): (s: seq<byte>)
    ensures |s| == width
  {
    if width == 0 then [] else ToBigEndian(value / 256, width - 1) + [value % 256]
  }

  lemma {:induction false} FromToBigEndian(value: nat, width: nat)
    requires value < Pow256(width)
    ensures FromBigEndian(ToBigEndian(value, width)) == value
  {
    if width > 0 {
      FromToBigEndian(value / 256, width - 1);
      assert ToBigEndian(value, width)[..width - 1] == ToBigEndian(value / 256, width - 1);
    }
  }

  lemma {:induction false} ToFromBigEndian(s: seq<byte>)
    ensures ToBigEndian(FromBigEndian(s), |s|) == s
  {
    if s != [] {
      var high := s[..|s| - 1];
      var low := s[|s| - 1];
      ToFromBigEndian(high);
      assert s == high + [low];
      LastDigit(FromBigEndian(high), low);
    }
  }

  lemma LastDigit(high: nat, low: byte)
    ensures (256 * high + low) / 256 == high && (256 * high + low) % 256 == low
  {
  }

  // The first byte is the most significant one.
  lemma {:induction false} MostSignificantFirst(high: byte, s: seq<byte>)
    ensures FromBigEndian([high] + s) == high * Pow256(|s|) + FromBigEndian(s)
    decreases |s|
  {
    var whole := [high] + s;
    if s == [] { assert whole[..0] == []; }
    else {
      var n := |s| - 1;
      MostSignificantFirst(high, s[..n]);
      assert whole[..|whole| - 1] == [high] + s[..n] && whole[|whole| - 1] == s[n];
      Times256(high, Pow256(n));
    }
  }

  lemma Times256(a: nat, b: nat)
    ensures a * (256 * b) == 256 * (a * b)
  {
  }
}
