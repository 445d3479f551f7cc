/** Bytes, fixed-width unsigned integers and their byte encodings. */
module Bytes {

  type byte = b: int | 0 <= b < 256
  type Bytes = seq<byte>

  const U32_LIMIT: int := 0x1_0000_0000
  const U64_LIMIT: int := 0x1_0000_0000_0000_0000

  type u32 = x: int | 0 <= x < U32_LIMIT
  type u64 = x: int | 0 <= x < U64_LIMIT

  /** 256 raised to the power n: one more than the largest value n bytes can hold. */
  function Pow256(n: nat): (p: nat)
    ensures p > 0
  {
    if n == 0 then 1 else 256 * Pow256(n - 1)
  }

  /** `width` bytes of x, most significant first (the layout of `u32::to_be_bytes`). */
  function ToBigEndian(x: nat, width: nat): (s: Bytes)
    ensures |s| == width
  {
    if width == 0 then [] else ToBigEndian(x / 256, width - 1) + [x % 256]
  }

  function FromBigEndian(s: Bytes): nat
  {
    if s == [] then 0 else FromBigEndian(s[..|s| - 1]) * 256 + s[|s| - 1]
  }

  /** `width` bytes of x, least significant first (the layout of `u64::to_le_bytes`). */
  function ToLittleEndian(x: nat, width: nat): (s: Bytes)
    ensures |s| == width
  {
    if width == 0 then [] else [x % 256] + ToLittleEndian(x / 256, width - 1)
  }

  function FromLittleEndian(s: Bytes): nat
  {
    if s == [] then 0 else s[0] + 256 * FromLittleEndian(s[1..])
  }

  lemma DivBelowPow(x: nat, width: nat)
    requires 0 < width && x < Pow256(width)
    ensures x / 256 < Pow256(width - 1)
  {
  }

  /** Reading back a value written big-endian gives the value, whenever it fits the width. */
  lemma {:induction false} BigEndianRoundTrip(x: nat, width: nat)
    requires x < Pow256(width)
    ensures FromBigEndian(ToBigEndian(x, width)) == x
  {
    if width > 0 {
      var s := ToBigEndian(x, width);
      assert s[..|s| - 1] == ToBigEndian(x / 256, width - 1);
      DivBelowPow(x, width);
      BigEndianRoundTrip(x / 256, width - 1);
    }
  }

  /** Reading back a value written little-endian gives the value, whenever it fits the width. */
  lemma {:induction false} LittleEndianRoundTrip(x: nat, width: nat)
    requires x < Pow256(width)
    ensures FromLittleEndian(ToLittleEndian(x, width)) == x
  {
    if width > 0 {
      var s := ToLittleEndian(x, width);
      assert s[1..] == ToLittleEndian(x / 256, width - 1);
      DivBelowPow(x, width);
      LittleEndianRoundTrip(x / 256, width - 1);
    }
  }

  /** n bytes read big-endian give a value below 256^n. */
  lemma {:induction false} FromBigEndianBound(s: Bytes)
    ensures FromBigEndian(s) < Pow256(|s|)
  {
    if s != [] {
      FromBigEndianBound(s[..|s| - 1]);
    }
  }

  lemma Pow256Widths()
    ensures Pow256(4) == U32_LIMIT && Pow256(8) == U64_LIMIT
  {
  }
}
