// The base-32 decoder of onion addresses (src/uri.rs; RFC 4648, section 6, lower case, unpadded).
module Base32 {
  import opened Wrappers
  import opened Bytes

  function Digit(ch: char): Option<nat> {
    if 'a' <= ch <= 'z' then Some((ch - 'a') as nat)
    else if '2' <= ch <= '7' then Some((ch - '2') as nat + 26)
    else None
  }

  predicate AllDigits(text: string) { forall i :: 0 <= i < |text| ==> Digit(text[i]).Some? }

  // The number a text denotes, most significant digit first.
  function Value(text: string): nat
    requires AllDigits(text)
    decreases |text|
  {
    if text == "" then 0 else 32 * Value(text[..|text| - 1]) + Digit(text[|text| - 1]).value
  }

  function Pow2(n: nat): (p: nat)
    ensures p >= 1
  {
    if n == 0 then 1 else 2 * Pow2(n - 1)
  }

  // The bits of the last digit that no output byte takes.
  function Unused(text: string): nat { 5 * |text| % 8 }

  // `out` is the base-32 value of `text` without its unused low bits, which are zero.
  predicate Decodes(text: string, out: seq<byte>) {
    && AllDigits(text)
    && |out| == 5 * |text| / 8
    && FromBigEndian(out) * Pow2(Unused(text)) == Value(text)
  }

  lemma Pow2Sum(a: nat, b: nat)
    ensures Pow2(a + b) == Pow2(a) * Pow2(b)
  {
    if a > 0 {
      Pow2Sum(a - 1, b);
      assert Pow2(a - 1 + b) * 2 == Pow2(a - 1) * Pow2(b) * 2;
    }
  }

  // What the loop holds after some digits: the bytes it wrote and the bits it keeps.
  predicate Holds(text: string, out: seq<byte>, accumulator: nat, bits: nat) {
    && AllDigits(text)
    && 8 * |out| + bits == 5 * |text|
    && accumulator < Pow2(bits)
    && FromBigEndian(out) * Pow2(bits) + accumulator == Value(text)
  }

  lemma TakeDigit(text: string, ch: char, out: seq<byte>, accumulator: nat, bits: nat)
    requires Holds(text, out, accumulator, bits) && Digit(ch).Some?
    ensures Holds(text + [ch], out, accumulator * 32 + Digit(ch).value, bits + 5)
  {
    assert (text + [ch])[..|text|] == text;
    Pow2Sum(bits, 5);
    assert Pow2(5) == 32;
    assert (accumulator + 1) * 32 <= Pow2(bits) * 32;
    Rescale(FromBigEndian(out), Pow2(bits), accumulator, Value(text), Digit(ch).value);
  }

  lemma Rescale(high: nat, weight: nat, low: nat, value: nat, digit: nat)
    requires high * weight + low == value
    ensures high * (weight * 32) + (low * 32 + digit) == 32 * value + digit
  {
  }

  lemma MulUp(a: nat, b: nat, unit: nat)
    ensures a < b ==> (a + 1) * unit <= b * unit
    ensures a <= b ==> a * unit <= b * unit
  {
    if a < b { assert b * unit == (a + 1) * unit + (b - a - 1) * unit; }
    if a <= b { assert b * unit == a * unit + (b - a) * unit; }
  }

  lemma DivBound(a: nat, d: nat)
    requires d >= 1 && a < 256 * d
    ensures a / d < 256 && a % d < d && a == a / d * d + a % d
  {
    MulUp(256, a / d, d);
  }

  lemma AppendByte(out: seq<byte>, b: byte)
    ensures FromBigEndian(out + [b]) == 256 * FromBigEndian(out) + b
  {
    assert (out + [b])[..|out|] == out;
  }

  lemma PutByte(text: string, out: seq<byte>, accumulator: nat, bits: nat)
    requires Holds(text, out, accumulator, bits) && bits >= 8
    ensures accumulator / Pow2(bits - 8) < 256
    ensures Holds(text, out + [accumulator / Pow2(bits - 8)], accumulator % Pow2(bits - 8), bits - 8)
  {
    hide Value, FromBigEndian, Pow2;
    var low := Pow2(bits - 8);
    Pow2Sum(8, bits - 8);
    EightBits();
    DivBound(accumulator, low);
    AppendByte(out, accumulator / low);
    SplitByte(FromBigEndian(out), low, accumulator);
  }

  lemma EightBits()
    ensures Pow2(8) == 256
  {
  }

  lemma SplitByte(high: nat, low: nat, a: nat)
    requires low >= 1
    ensures (256 * high + a / low) * low + a % low == high * (256 * low) + a
  {
    assert a == a / low * low + a % low;
    assert (256 * high + a / low) * low == 256 * high * low + a / low * low;
    assert 256 * high * low == high * (256 * low);
  }

  // Decodes exactly the texts that are the base-32 form of some bytes followed by zero bits.
  method DecodeBase32(text: string) returns (decoded: Option<seq<byte>>)
    ensures decoded.Some? ==> Decodes(text, decoded.value)
    ensures decoded.None? ==> forall out :: !Decodes(text, out)
  {
    hide Value, Pow2, FromBigEndian, Holds, Decodes, Digit;
    var out: seq<byte> := [];
    var accumulator: nat := 0;
    var bits: nat := 0;
    Nothing();
    var i := 0;
    while i < |text|
      invariant 0 <= i <= |text| && bits < 8
      invariant Holds(text[..i], out, accumulator, bits)
    {
      var digit := Digit(text[i]);
      if digit.None? {
        BadDigit(text, i);
        return None;
      }
      TakeDigit(text[..i], text[i], out, accumulator, bits);
      assert text[..i + 1] == text[..i] + [text[i]];
      accumulator := accumulator * 32 + digit.value;
      bits := bits + 5;
      while bits >= 8
        invariant Holds(text[..i + 1], out, accumulator, bits) && bits <= 12
      {
        PutByte(text[..i + 1], out, accumulator, bits);
        var low := Pow2(bits - 8);
        out := out + [accumulator / low];
        accumulator := accumulator % low;
        bits := bits - 8;
      }
      i := i + 1;
    }
    assert text[..i] == text;
    Leftover(text, out, accumulator, bits);
    return if accumulator != 0 then None else Some(out);
  }

  lemma Nothing()
    ensures Holds("", [], 0, 0)
  {
  }

  lemma BadDigit(text: string, i: nat)
    requires i < |text| && Digit(text[i]).None?
    ensures forall out :: !Decodes(text, out)
  {
    assert !AllDigits(text);
  }

  // With bits left over that are not zero, no bytes at all have this text.
  lemma Leftover(text: string, out: seq<byte>, accumulator: nat, bits: nat)
    requires Holds(text, out, accumulator, bits) && bits < 8
    ensures accumulator == 0 ==> Decodes(text, out)
    ensures accumulator != 0 ==> forall other :: !Decodes(text, other)
  {
    hide Value, Pow2, FromBigEndian;
    assert bits == Unused(text);
    forall other | Decodes(text, other) ensures accumulator == 0 {
      Multiple(FromBigEndian(other), FromBigEndian(out), Pow2(bits), accumulator);
    }
  }

  lemma Multiple(a: nat, b: nat, unit: nat, rest: nat)
    requires unit >= 1 && a * unit == b * unit + rest && rest < unit
    ensures rest == 0
  {
    MulUp(a, b, unit);
    MulUp(b, a, unit);
    assert (b + 1) * unit == b * unit + unit;
  }

  // ---- uniqueness ----------------------------------------------------------------------------

  lemma {:induction false} ValueIsInjective(a: string, b: string)
    requires AllDigits(a) && AllDigits(b) && |a| == |b| && Value(a) == Value(b)
    ensures a == b
    decreases |a|
  {
    if a != "" {
      var n := |a| - 1;
      assert Digit(a[n]).value < 32 && Digit(b[n]).value < 32;
      ValueIsInjective(a[..n], b[..n]);
      assert a == a[..n] + [a[n]] && b == b[..n] + [b[n]];
    }
  }

  lemma {:induction false} BytesAreInjective(a: seq<byte>, b: seq<byte>)
    requires |a| == |b| && FromBigEndian(a) == FromBigEndian(b)
    ensures a == b
  {
    ToFromBigEndian(a);
    ToFromBigEndian(b);
  }

  // At each length, a text has one decoding and a decoding has one text: two spellings of one
  // address cannot differ.
  lemma {:induction false} DecodingIsInjective(a: string, b: string, x: seq<byte>, y: seq<byte>)
    requires |a| == |b| && Decodes(a, x) && Decodes(b, y)
    ensures x == y <==> a == b
  {
    var unit := Pow2(Unused(a));
    if x == y { ValueIsInjective(a, b); }
    if a == b {
      SameMultiple(FromBigEndian(x), FromBigEndian(y), unit);
      BytesAreInjective(x, y);
    }
  }

  lemma SameMultiple(a: nat, b: nat, unit: nat)
    requires unit >= 1 && a * unit == b * unit
    ensures a == b
  {
    MulUp(a, b, unit);
    MulUp(b, a, unit);
    assert (b + 1) * unit == b * unit + unit && (a + 1) * unit == a * unit + unit;
  }
}
