/** Rust's fixed-width unsigned integers, as subsets of the naturals.
    Widening (`u32(ms)` for a `u16` or `u8` value) is the identity on these types,
    because every `u8` is a `u16` and every `u16` is a `u32`. */
module Uint {
  const U32_MODULUS: nat := 0x1_0000_0000

  type u8 = x: nat | x < 0x100
  type u16 = x: nat | x < 0x1_0000
  type u32 = x: nat | x < 0x1_0000_0000

  /** Rust's `*` on two `u32` values when overflow checks are off (release
      profile): the product reduced modulo 2^32. */
  function WrappingMul(a: u32, b: u32): (r: u32)
    ensures a * b < U32_MODULUS ==> r == a * b
    ensures a == 0 || b == 0 ==> r == 0
  {
    var p := a * b;
    assert a == 0 || b == 0 ==> p == 0;
    assert p < U32_MODULUS ==> p % U32_MODULUS == p;
    p % U32_MODULUS
  }
}
