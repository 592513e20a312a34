/** Fixed-width integer helpers shared by the CPU, the coprocessor and the
    memory map. Register contents and instruction words are bit-vectors;
    addresses and the program counter are unsigned integers kept in range by
    subset types, so that address arithmetic stays ordinary arithmetic.
 */
module Bits {

  const TWO_32: int := 0x1_0000_0000
  const TWO_64: int := 0x1_0000_0000_0000_0000

  /** A `u32` address. */
  type U32 = x: int | 0 <= x < TWO_32

  /** A `u64` address. */
  type U64 = x: int | 0 <= x < TWO_64

  /** A u64 data value cast to u32 (`data as u32`): keep the low 32 bits. */
  function Low32(x: bv64): (r: bv32)
    ensures r as bv64 == x & 0xffff_ffff
  {
    (x & 0xffff_ffff) as bv32
  }

  /** A u64 address cast to u32 (`addr as u32`): reduce modulo 2^32. The cast
      loses nothing for addresses that already fit. */
  function AddrToU32(x: U64): (r: U32)
    ensures x < TWO_32 ==> r == x
  {
    x % TWO_32
  }
}
