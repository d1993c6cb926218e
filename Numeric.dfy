/** Fixed-width integers of the C++ source, and the two numeric helpers the
    render path uses: `std::clamp` and unsigned 32-bit subtraction. */
module Numeric {

  const TWO_TO_THE_8: int := 0x100
  const TWO_TO_THE_16: int := 0x1_0000
  const TWO_TO_THE_32: int := 0x1_0000_0000

  newtype uint8 = x: int | 0 <= x < TWO_TO_THE_8
  newtype uint16 = x: int | 0 <= x < TWO_TO_THE_16
  newtype uint32 = x: int | 0 <= x < TWO_TO_THE_32

  /** `std::clamp(v, lo, hi)`: `lo` when `v < lo`, `hi` when `hi < v`, else `v`. */
  function Clamp(v: real, lo: real, hi: real): (r: real)
    requires lo <= hi
    ensures lo <= r <= hi
    ensures lo <= v <= hi ==> r == v
    ensures v < lo ==> r == lo
    ensures hi < v ==> r == hi
  {
    if v < lo then lo else if hi < v then hi else v
  }

  /** `a - b` on `uint32_t`: the difference modulo 2^32. */
  function WrappingSub(a: uint32, b: uint32): (r: uint32)
    ensures b <= a ==> r == a - b
    ensures a < b ==> r as int == a as int - b as int + TWO_TO_THE_32
  {
    ((a as int - b as int) % TWO_TO_THE_32) as uint32
  }
}
