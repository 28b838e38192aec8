/**
 * Fixed-width unsigned arithmetic of the ESP32 target. `unsigned long` and
 * `uint32_t` are 32 bits wide and wrap modulo 2^32, `uint64_t` wraps modulo
 * 2^64 and `uint8_t` modulo 256. `millis()` is a `ULong`.
 */
module Unsigned {
  const ULONG_MOD: int := 0x1_0000_0000
  const U64_MOD: int := 0x1_0000_0000_0000_0000

  type ULong = x: int | 0 <= x < ULONG_MOD
  type U64 = x: int | 0 <= x < U64_MOD
  type Byte = x: int | 0 <= x < 256

  /** Conversion of a mathematical integer to `unsigned long`: reduction modulo 2^32. */
  function Wrap(x: int): (r: ULong)
    ensures 0 <= x < ULONG_MOD ==> r == x
    ensures ULONG_MOD <= x < 2 * ULONG_MOD ==> r == x - ULONG_MOD
    ensures -ULONG_MOD <= x < 0 ==> r == x + ULONG_MOD
    ensures (x - r) % ULONG_MOD == 0
  {
    x % ULONG_MOD
  }

  /** `a - b` on `unsigned long`: how far the 2^32 clock moved forward from `b` to `a`. */
  function Minus(a: ULong, b: ULong): (r: ULong)
    ensures b <= a ==> r == a - b
    ensures a < b ==> r == ULONG_MOD + a - b
  {
    Wrap(a - b)
  }
}
