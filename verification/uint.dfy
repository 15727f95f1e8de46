/** Rust's fixed-width unsigned integers and the checked arithmetic the programs rely on. */
module Uint {
  import opened Results

  const U8_MAX: nat := 0xFF
  const U64_MAX: nat := 0xFFFF_FFFF_FFFF_FFFF

  type u8 = x: int | 0 <= x <= U8_MAX
  type u64 = x: int | 0 <= x <= U64_MAX

  /** `a.checked_add(b)` on an unsigned type whose largest value is `max`. */
  function CheckedAdd(a: nat, b: nat, max: nat): (r: Option<nat>)
    ensures r.Some? <==> a + b <= max
    ensures r.Some? ==> r.value <= max && r.value == a + b
  {
    if a + b <= max then Some(a + b) else None
  }

  /** `a.checked_sub(b)` on an unsigned type: `None` when the result would be negative. */
  function CheckedSub(a: nat, b: nat): (r: Option<nat>)
    ensures r.Some? <==> b <= a
    ensures r.Some? ==> r.value == a - b
  {
    if b <= a then Some(a - b) else None
  }
}
