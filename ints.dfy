/** Fixed-width machine integers of the firmware, as bounded subsets of int. */
module Ints {
  const U8_LIMIT: int := 0x100
  const U16_LIMIT: int := 0x1_0000
  const U32_LIMIT: int := 0x1_0000_0000
  const I16_MAX: int := 0x7FFF
  const I32_MAX: int := 0x7FFF_FFFF

  type U8 = x: int | 0 <= x < U8_LIMIT
  type U16 = x: int | 0 <= x < U16_LIMIT
  type U32 = x: int | 0 <= x < U32_LIMIT
  type I16 = x: int | -I16_MAX - 1 <= x <= I16_MAX
  type I32 = x: int | -I32_MAX - 1 <= x <= I32_MAX
}
