/** Fixed-width unsigned integers of the C++ source, as bounded naturals. */
module Uint {
  const U16_MODULUS: nat := 0x1_0000
  const U32_MODULUS: nat := 0x1_0000_0000

  /** `uint16_t` */
  type u16 = x: int | 0 <= x < 0x1_0000

  /** `uint32_t` */
  type u32 = x: int | 0 <= x < 0x1_0000_0000

  /** `x++` / `x + 1` on a `uint32_t`: wraps from 2^32 - 1 to 0. */
  function Inc32(x: u32): (r: u32)
    ensures x < U32_MODULUS - 1 ==> r == x + 1
    ensures x == U32_MODULUS - 1 ==> r == 0
  {
    (x + 1) % U32_MODULUS
  }

  /** `x - 1` on a `uint32_t`: wraps from 0 to 2^32 - 1. */
  function Dec32(x: u32): (r: u32)
    ensures x > 0 ==> r == x - 1
    ensures x == 0 ==> r == U32_MODULUS - 1
  {
    (x + U32_MODULUS - 1) % U32_MODULUS
  }

  /** `a + b` stored back into a `uint16_t`. */
  function Add16(a: u16, b: nat): (r: u16)
    ensures a + b < U16_MODULUS ==> r == a + b
  {
    (a + b) % U16_MODULUS
  }
}
