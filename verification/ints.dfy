/** Fixed-width unsigned integers of the firmware, as subset types of `int`.
    Wrap-around is never implicit: a store into a narrower field goes through
    an explicit wrapping function. */
module Ints {

  const UINT8_LIMIT: nat := 0x100
  const UINT16_LIMIT: nat := 0x1_0000

  type uint8 = x: int | 0 <= x < 0x100
  type uint16 = x: int | 0 <= x < 0x1_0000

  /** The value an unsigned 16-bit field holds after storing `x` into it:
      `x` reduced modulo 2^16. */
  function Wrap16(x: nat): (r: uint16)
    ensures x < UINT16_LIMIT ==> r == x
    ensures r <= x
    ensures (x - r) % UINT16_LIMIT == 0
  {
    x % UINT16_LIMIT
  }
}
