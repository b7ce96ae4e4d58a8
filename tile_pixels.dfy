/** Decoding of the NES two-bit-plane tile format shared by the renderers and the tile viewer:
    a tile is 16 bytes, row `y` of it is held in bytes `y` and `y + 8`, and the pixel in
    column `x` of a row takes bit `7 - x` of each of the two bytes. */
module TilePixels {

  /** Bit `k` of `b`, as 0 or 1. */
  function Bit(b: bv8, k: nat): (r: bv8)
    requires k < 8
    ensures r == 0 || r == 1
    ensures r == 1 <==> b & (1 << k) != 0
  {
    (b >> k) & 1
  }

  /** The two-bit colour number whose bit 0 is bit `k` of `low` and whose bit 1 is bit `k`
      of `high`. */
  function PixelValue(low: bv8, high: bv8, k: nat): (v: bv8)
    requires k < 8
    ensures v <= 3
    ensures v & 1 == Bit(low, k) && v >> 1 == Bit(high, k)
  {
    (Bit(high, k) << 1) | Bit(low, k)
  }

  /** The byte the decoding loops hold after shifting `b` right `k` times, one place per pixel. */
  function Shifted(b: bv8, k: nat): bv8
    decreases k
  {
    if k == 0 then b else Shifted(b, k - 1) >> 1
  }

  /** Shifting `k` times one place is shifting `k` places. */
  lemma {:induction false} ShiftedIsShift(b: bv8, k: nat)
    requires k <= 8
    ensures Shifted(b, k) == b >> k
    decreases k
  {
    if k > 0 {
      ShiftedIsShift(b, k - 1);
      ShiftTwice(b, k - 1);
    }
  }

  lemma ShiftTwice(b: bv8, k: nat)
    requires k < 8
    ensures (b >> k) >> 1 == b >> (k + 1)
  {
  }

  /** After `k` shifts, bit 0 of what the loops hold is bit `k` of the original byte. */
  lemma ShiftedBit(b: bv8, k: nat)
    requires k < 8
    ensures 1 & Shifted(b, k) == Bit(b, k)
  {
    ShiftedIsShift(b, k);
  }

  /** The loops' expression `((1 & high) << 1) | (1 & low)` on the shifted bytes is the colour
      number of pixel `k`. */
  lemma ShiftedValue(low: bv8, high: bv8, k: nat)
    requires k < 8
    ensures ((1 & Shifted(high, k)) << 1) | (1 & Shifted(low, k)) == PixelValue(low, high, k)
  {
    ShiftedBit(low, k);
    ShiftedBit(high, k);
  }
}
