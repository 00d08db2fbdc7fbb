// Fixed-width integer types of the AVR firmware, as subset types of int.
// Wrap-around is never implicit: code that can overflow says so with Wrap8,
// Wrap16 or Wrap32.
module Ints {

  type u8 = x: int | 0 <= x < 0x100
  type u16 = x: int | 0 <= x < 0x1_0000
  type u32 = x: int | 0 <= x < 0x1_0000_0000
  type i16 = x: int | -0x8000 <= x < 0x8000
  type i32 = x: int | -0x8000_0000 <= x < 0x8000_0000

  /** Storing an int into a uint8_t keeps it modulo 2^8. */
  function Wrap8(x: int): u8 { x % 0x100 }

  /** Storing an int into a uint16_t keeps it modulo 2^16. */
  function Wrap16(x: int): u16 { x % 0x1_0000 }

  /** Storing an int into a uint32_t keeps it modulo 2^32. */
  function Wrap32(x: int): u32 { x % 0x1_0000_0000 }

  /** The cast (int32_t) v of a uint32_t: the same bits read as two's complement. */
  function AsInt32(v: u32): i32 {
    if v < 0x8000_0000 then v else v - 0x1_0000_0000
  }
}
