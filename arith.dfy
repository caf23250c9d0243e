/** Fixed-width unsigned arithmetic of the Rust source, on unbounded naturals. */
module Arith {

  const U32_MAX: nat := 0xffff_ffff
  const U128_MAX: nat := 0xffff_ffff_ffff_ffff_ffff_ffff_ffff_ffff

  function Min(a: nat, b: nat): nat { if a <= b then a else b }

  /** `u128::saturating_add` */
  function SatAdd128(a: nat, b: nat): (r: nat)
    ensures r <= U128_MAX
    ensures a + b <= U128_MAX ==> r == a + b
    ensures a + b > U128_MAX ==> r == U128_MAX
  {
    if a + b > U128_MAX then U128_MAX else a + b
  }

  /** `u128::saturating_mul` */
  function SatMul128(a: nat, b: nat): (r: nat)
    ensures r <= U128_MAX
    ensures a * b <= U128_MAX ==> r == a * b
    ensures a * b > U128_MAX ==> r == U128_MAX
    ensures r <= a * b
  {
    if a * b > U128_MAX then U128_MAX else a * b
  }

  /** `u32::saturating_add` */
  function SatAdd32(a: nat, b: nat): (r: nat)
    ensures r <= U32_MAX
    ensures a + b <= U32_MAX ==> r == a + b
    ensures a + b > U32_MAX ==> r == U32_MAX
  {
    if a + b > U32_MAX then U32_MAX else a + b
  }

  /** `u32::saturating_mul` */
  function SatMul32(a: nat, b: nat): (r: nat)
    ensures r <= U32_MAX
    ensures a * b <= U32_MAX ==> r == a * b
    ensures a * b > U32_MAX ==> r == U32_MAX
  {
    if a * b > U32_MAX then U32_MAX else a * b
  }

  /** `saturating_sub` on any unsigned width: floored at zero. */
  function SatSub(a: nat, b: nat): (r: nat)
    ensures r <= a
    ensures b <= a ==> r + b == a
    ensures b >= a ==> r == 0
  {
    if b >= a then 0 else a - b
  }

  /** `*` on u128 in a release build, which wraps around. */
  function WrapMul128(a: nat, b: nat): (r: nat)
    ensures r <= U128_MAX
    ensures a * b <= U128_MAX ==> r == a * b
  {
    (a * b) % (U128_MAX + 1)
  }

  /** `x as u32`: keeps the low 32 bits. */
  function AsU32(x: nat): (r: nat)
    ensures r <= U32_MAX
    ensures x <= U32_MAX ==> r == x
  {
    x % (U32_MAX + 1)
  }
}
