/** Rust's fixed-width integer types, as subsets of the unbounded `int`.
    Arithmetic is done on `int` and converted back only where the source
    proves, or the model checks, that the value fits. */
module RustInts {

  const U32_MAX: int := 0xFFFF_FFFF
  const I32_MIN: int := -0x8000_0000
  const I32_MAX: int := 0x7FFF_FFFF
  const I64_MIN: int := -0x8000_0000_0000_0000
  const I64_MAX: int := 0x7FFF_FFFF_FFFF_FFFF

  newtype u32 = x: int | 0 <= x <= 0xFFFF_FFFF
  newtype i32 = x: int | -0x8000_0000 <= x <= 0x7FFF_FFFF
  newtype i64 = x: int | -0x8000_0000_0000_0000 <= x <= 0x7FFF_FFFF_FFFF_FFFF
}
