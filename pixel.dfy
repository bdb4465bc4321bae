/**
  Packed ARGB_8888 pixels as used by the native kernel: one 32-bit word per
  pixel, alpha in bits 24..31, then the channels the kernel calls red
  (16..23), green (8..15) and blue (0..7). Android stores the bytes R, G, B,
  A in memory, so on a little-endian device the kernel's "red" is the blue
  byte and its "blue" the red one; every stage treats the two the way the
  kernel names them, and nothing below depends on the naming.
  Also the integer `clamp` helper that every writer uses to keep a channel
  inside a byte.
 */
module Pixel {

  /** A value that fits in one 8-bit channel. */
  predicate IsByte(v: int) {
    0 <= v < 256
  }

  function Alpha(c: bv32): (a: int)
    ensures IsByte(a)
  {
    ((c >> 24) & 0xFF) as int
  }

  function Red(c: bv32): (r: int)
    ensures IsByte(r)
  {
    ((c >> 16) & 0xFF) as int
  }

  function Green(c: bv32): (g: int)
    ensures IsByte(g)
  {
    ((c >> 8) & 0xFF) as int
  }

  function Blue(c: bv32): (b: int)
    ensures IsByte(b)
  {
    (c & 0xFF) as int
  }

  /** `(a << 24) | (r << 16) | (g << 8) | b` for byte-valued channels: each
      channel can be read back unchanged, so no channel bleeds into another. */
  function Pack(a: int, r: int, g: int, b: int): (c: bv32)
    requires IsByte(a) && IsByte(r) && IsByte(g) && IsByte(b)
    ensures Alpha(c) == a && Red(c) == r && Green(c) == g && Blue(c) == b
  {
    ToByteValue(a); ToByteValue(r); ToByteValue(g); ToByteValue(b);
    PackBytes(ToByte(a), ToByte(r), ToByte(g), ToByte(b))
  }

  /** Pack on channels that are already 8-bit vectors. */
  function PackBytes(a: bv8, r: bv8, g: bv8, b: bv8): (c: bv32)
    ensures Alpha(c) == a as int && Red(c) == r as int && Green(c) == g as int && Blue(c) == b as int
  {
    var c := (a as bv32 << 24) | (r as bv32 << 16) | (g as bv32 << 8) | b as bv32;
    PackBits(a, r, g, b);
    Widen(a); Widen(r); Widen(g); Widen(b);
    c
  }

  /** The bit-level half of Pack's contract. */
  lemma PackBits(a: bv8, r: bv8, g: bv8, b: bv8)
    ensures var c := (a as bv32 << 24) | (r as bv32 << 16) | (g as bv32 << 8) | b as bv32;
      (c >> 24) & 0xFF == a as bv32 && (c >> 16) & 0xFF == r as bv32
      && (c >> 8) & 0xFF == g as bv32 && c & 0xFF == b as bv32
  {
  }

  /** Zero-extending a byte keeps its numeric value. */
  lemma Widen(x: bv8)
    ensures (x as bv32) as int == x as int
  {
  }

  /** A byte-valued int as an 8-bit vector, built bit by bit from the top. */
  function ToByte(v: int): bv8
    requires IsByte(v)
  {
    if v == 0 then 0 else (ToByte(v / 2) << 1) | (if v % 2 == 1 then 1 else 0)
  }

  /** Shifting in one low bit doubles the value and adds the bit. */
  lemma ShiftIn(t: bv8, bit: bv8)
    requires t as int < 128 && (bit == 0 || bit == 1)
    ensures ((t << 1) | bit) as int == 2 * (t as int) + bit as int
  {
  }

  lemma {:induction false} ToByteValue(v: int)
    requires IsByte(v)
    ensures ToByte(v) as int == v
  {
    if v != 0 {
      var half, odd := v / 2, v % 2 == 1;
      assert v == 2 * half + (if odd then 1 else 0);
      ToByteValue(half);
      var bit: bv8 := if odd then 1 else 0;
      ShiftIn(ToByte(half), bit);
      assert bit as int == (if odd then 1 else 0);
    }
  }

  /** Two bytes with the same value are the same byte. */
  lemma ByteValueInjective(x: bv8, y: bv8)
    requires x as int == y as int
    ensures x == y
  {
  }

  /** The low byte of a word, as an 8-bit vector. */
  lemma LowByte(x: bv32)
    ensures ((x & 0xFF) as bv8) as bv32 == x & 0xFF
    ensures ((x & 0xFF) as bv8) as int == (x & 0xFF) as int
  {
  }

  /** Unpacking a pixel and packing its four channels again gives the pixel back. */
  lemma UnpackPack(c: bv32)
    ensures Pack(Alpha(c), Red(c), Green(c), Blue(c)) == c
  {
    ChannelByte(c >> 24);
    ChannelByte(c >> 16);
    ChannelByte(c >> 8);
    ChannelByte(c);
    RepackBytes(c);
  }

  /** A channel read as an int converts back to the same 8-bit vector. */
  lemma ChannelByte(x: bv32)
    ensures IsByte((x & 0xFF) as int)
    ensures ToByte((x & 0xFF) as int) == (x & 0xFF) as bv8
  {
    LowByte(x);
    ToByteValue((x & 0xFF) as int);
    ByteValueInjective(ToByte((x & 0xFF) as int), (x & 0xFF) as bv8);
  }

  lemma RepackBytes(c: bv32)
    ensures PackBytes(((c >> 24) & 0xFF) as bv8, ((c >> 16) & 0xFF) as bv8, ((c >> 8) & 0xFF) as bv8, (c & 0xFF) as bv8) == c
  {
    RepackBits(c);
  }

  lemma RepackBits(c: bv32)
    ensures var a8, r8, g8, b8 := ((c >> 24) & 0xFF) as bv8, ((c >> 16) & 0xFF) as bv8, ((c >> 8) & 0xFF) as bv8, (c & 0xFF) as bv8;
      (a8 as bv32 << 24) | (r8 as bv32 << 16) | (g8 as bv32 << 8) | b8 as bv32 == c
  {
  }

  /** `clamp` of helper.cpp: saturate an int into the byte range. */
  function Clamp(v: int): (r: int)
    ensures IsByte(r)
    ensures IsByte(v) ==> r == v
    ensures v < 0 ==> r == 0
    ensures v > 255 ==> r == 255
  {
    if v < 0 then 0 else if v > 255 then 255 else v
  }

  lemma ClampIdempotent(v: int)
    ensures Clamp(Clamp(v)) == Clamp(v)
  {
  }
}
