/** Fixed-width integer types of the C sources, the conversions that wrap into
    them, and a small Option type. */
module Basics {

  datatype Option<+T> = None | Some(value: T)

  newtype uint8 = x: int | 0 <= x < 0x100
  newtype int8 = x: int | -0x80 <= x < 0x80
  newtype int16 = x: int | -0x8000 <= x < 0x8000
  newtype int32 = x: int | -0x8000_0000 <= x < 0x8000_0000
  newtype int64 = x: int | -0x8000_0000_0000_0000 <= x < 0x8000_0000_0000_0000
  newtype uint64 = x: int | 0 <= x < 0x1_0000_0000_0000_0000

  /** Conversion of an integer value to `uint8_t`: reduction modulo 2^8. */
  function ToU8(x: int): (r: uint8)
    ensures 0 <= x < 0x100 ==> r as int == x
    ensures (x - r as int) % 0x100 == 0
  {
    (x % 0x100) as uint8
  }

  /** Conversion to `int16_t`, two's complement wrap-around. */
  function ToI16(x: int): (r: int16)
    ensures -0x8000 <= x < 0x8000 ==> r as int == x
    ensures (x - r as int) % 0x1_0000 == 0
  {
    ((x + 0x8000) % 0x1_0000 - 0x8000) as int16
  }

  /** Conversion to `int32_t`, two's complement wrap-around. */
  function ToI32(x: int): (r: int32)
    ensures -0x8000_0000 <= x < 0x8000_0000 ==> r as int == x
    ensures (x - r as int) % 0x1_0000_0000 == 0
  {
    ((x + 0x8000_0000) % 0x1_0000_0000 - 0x8000_0000) as int32
  }

  /** Conversion to `uint64_t`: reduction modulo 2^64. */
  function ToU64(x: int): (r: uint64)
    ensures 0 <= x < 0x1_0000_0000_0000_0000 ==> r as int == x
    ensures (x - r as int) % 0x1_0000_0000_0000_0000 == 0
  {
    (x % 0x1_0000_0000_0000_0000) as uint64
  }
}
