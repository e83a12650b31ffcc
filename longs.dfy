/** Java's 64-bit signed `long`, the type of every number in the point ledger. */
module Longs {

  const LongMin: int := -0x8000_0000_0000_0000
  const LongMax: int := 0x7FFF_FFFF_FFFF_FFFF
  /** 2^64: `long` arithmetic is exact modulo this number. */
  const LongModulus: int := 0x1_0000_0000_0000_0000

  type Long = x: int | -0x8000_0000_0000_0000 <= x <= 0x7FFF_FFFF_FFFF_FFFF

  /** The two's-complement value Java's `+` and `-` on `long` produce for the exact result `x`. */
  function Wrap(x: int): (r: Long)
    ensures LongMin <= x <= LongMax ==> r == x
    ensures LongMax < x <= LongMax + LongModulus ==> r == x - LongModulus
    ensures LongMin - LongModulus <= x < LongMin ==> r == x + LongModulus
  {
    (x - LongMin) % LongModulus + LongMin
  }
}
