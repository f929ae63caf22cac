/** Fixed-width integers of the firmware and the C++ conversions between them.
    Values are unbounded Dafny integers; every narrowing the C++ code performs is
    written out here, so that wrap-around is explicit wherever it can happen. */
module Ints {

  type uint8 = x: int | 0 <= x < 0x100
  type uint16 = x: int | 0 <= x < 0x1_0000
  type int16 = x: int | -0x8000 <= x < 0x8000
  type uint32 = x: int | 0 <= x < 0x1_0000_0000

  const INT16_MAX: int := 0x7FFF

  predicate InInt16(x: int) {
    -0x8000 <= x < 0x8000
  }

  /** Storing an `int` into an `int16_t`: two's-complement wrap-around. */
  function ToInt16(x: int): (r: int16)
    ensures InInt16(x) ==> r == x
    ensures (r - x) % 0x1_0000 == 0
  {
    (x + 0x8000) % 0x1_0000 - 0x8000
  }

  /** Storing an `int` into a `uint16_t`: reduction modulo 2^16. */
  function ToUInt16(x: int): (r: uint16)
    ensures 0 <= x < 0x1_0000 ==> r == x
    ensures (r - x) % 0x1_0000 == 0
  {
    x % 0x1_0000
  }

  /** Unsigned 32-bit (`unsigned long` on the ESP32) arithmetic: reduction modulo 2^32. */
  function ToUInt32(x: int): (r: uint32)
    ensures 0 <= x < 0x1_0000_0000 ==> r == x
    ensures (r - x) % 0x1_0000_0000 == 0
  {
    x % 0x1_0000_0000
  }
}
