/** The C++ integer types the three components use, with their fixed widths. */
module NativeTypes {

  /** 2^32: one past the largest `unsigned int`. */
  const UINT32_LIMIT: int := 0x1_0000_0000

  /** `unsigned int` (32 bits). */
  newtype uint32 = x: int | 0 <= x < 0x1_0000_0000

  /** `int` (32 bits, two's complement). */
  newtype int32 = x: int | -0x8000_0000 <= x < 0x8000_0000

  /** The implicit conversion of an `int` argument to an `unsigned int`
      parameter: the value congruent to `x` modulo 2^32. */
  function ToUnsigned(x: int32): (u: uint32)
    ensures (u as int - x as int) % UINT32_LIMIT == 0
    ensures x >= 0 ==> u as int == x as int
  {
    (x as int % UINT32_LIMIT) as uint32
  }
}
