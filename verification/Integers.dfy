/** Fixed-width integers of the original, as subset types of `int`. */
module Integers {
  const TWO_8: int := 0x100
  const TWO_16: int := 0x1_0000
  const TWO_32: int := 0x1_0000_0000
  const TWO_63: int := 0x8000_0000_0000_0000
  const TWO_64: int := 0x1_0000_0000_0000_0000

  type byte = x: int | 0 <= x < 0x100
  type u16 = x: int | 0 <= x < 0x1_0000
  type u32 = x: int | 0 <= x < 0x1_0000_0000
  type u64 = x: int | 0 <= x < 0x1_0000_0000_0000_0000
  type i64 = x: int | -0x8000_0000_0000_0000 <= x < 0x8000_0000_0000_0000

  const INT64_MAX: i64 := 0x7FFF_FFFF_FFFF_FFFF
  const INT64_MIN: i64 := -0x8000_0000_0000_0000

  /** A string of the original: a sequence of bytes, NUL included. */
  type text = seq<byte>

  datatype Option<+T> = None | Some(value: T)

  /** `Id::next`: identities wrap at 2^64. */
  function Next(id: u64): u64 { (id + 1) % TWO_64 }

  /** `static_cast<uint64_t>(int64_t)` and its inverse: two's complement. */
  function ToUnsigned(x: i64): u64 { if x < 0 then x + TWO_64 else x }

  function ToSigned(x: u64): i64 { if x >= TWO_63 then x - TWO_64 else x }

  /** Signed addition with the wrap-around of two's complement. */
  function WrapAdd(a: i64, b: i64): i64 { ToSigned((a + b) % TWO_64) }
}
