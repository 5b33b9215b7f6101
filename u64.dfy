/** Unsigned 64-bit machine arithmetic as Rust performs it. */
module U64Arith {
  import opened Wrappers

  const U64_MAX: int := 0xFFFF_FFFF_FFFF_FFFF
  const TWO_TO_THE_64: int := 0x1_0000_0000_0000_0000

  /** Rust's `u64`. */
  type U64 = x: int | 0 <= x <= U64_MAX

  /** `a.wrapping_add(b)`: the sum reduced modulo 2^64. */
  function WrappingAdd(a: U64, b: U64): (r: U64) {
    (a + b) % TWO_TO_THE_64
  }

  /**
   * `a.checked_add(b)`, computed the way the machine does: add with
   * wrap-around and report overflow when the carry made the sum smaller than
   * an operand. The contract states the meaning of the result in terms of the
   * mathematical sum.
   */
  function CheckedAdd(a: U64, b: U64): (r: Option<U64>)
    ensures r.None? <==> a + b > U64_MAX
    ensures r.Some? ==> r.value == a + b
  {
    var w := WrappingAdd(a, b);
    if w < a then None else Some(w)
  }
}
