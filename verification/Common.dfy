/** Shared vocabulary: an option type and the machine integers of the server. */
module Common {

  datatype Option<+T> = None | Some(value: T)

  const TWO_63: int := 0x8000_0000_0000_0000
  const TWO_64: int := 0x1_0000_0000_0000_0000

  type u64 = x: int | 0 <= x < TWO_64
  type i64 = x: int | -TWO_63 <= x < TWO_63

  /** Rust's `as i64` on a `u64`: the same 64 bits, read as two's complement. */
  function AsI64(x: u64): i64 {
    if x < TWO_63 then x else x - TWO_64
  }

  /** Rust's `as u64` on an `i64`. */
  function AsU64(x: i64): u64 {
    if x >= 0 then x else x + TWO_64
  }

  /** `max(0) as u64` on an `i64`: a negative figure reads as zero. */
  function Clamp(x: i64): u64 {
    if x < 0 then 0 else x
  }
}
