/** The fixed-width machine integers the Rust sources use. Arithmetic on them is
    done on unbounded integers; a precondition rules out each overflow that
    would make the Rust program panic. */
module Ints {
  const U32_MAX: nat := 0xFFFF_FFFF
  const I32_MIN: int := -0x8000_0000
  const I32_MAX: int := 0x7FFF_FFFF

  /** Rust `u32`. */
  type U32 = x: nat | x <= U32_MAX

  /** Rust `i32`. */
  type I32 = x: int | I32_MIN <= x <= I32_MAX

  /** Rust `u64`. */
  type U64 = x: nat | x < 0x1_0000_0000_0000_0000
}
