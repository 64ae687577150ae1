/** Go's 64-bit unsigned integers.  A value outside the range is a proof obligation, so nothing here wraps silently. */
module Words {
  newtype uint64 = x: int | 0 <= x < 0x1_0000_0000_0000_0000

  const MaxUint64: uint64 := 0xFFFF_FFFF_FFFF_FFFF

  /** Subtraction as the machine does it. */
  function Minus(a: uint64, b: uint64): uint64 {
    if b <= a then a - b else MaxUint64 - (b - a) + 1
  }
}
