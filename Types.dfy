/** Fixed-width integer types of the plug-in's C++ code. */
module Types {
  const UINT8_LIMIT: int := 0x100
  const UINT16_LIMIT: int := 0x1_0000
  const UINT32_LIMIT: int := 0x1_0000_0000

  type uint8 = x: int | 0 <= x < UINT8_LIMIT
  type uint16 = x: int | 0 <= x < UINT16_LIMIT
  type uint32 = x: int | 0 <= x < UINT32_LIMIT
  type int32 = x: int | -0x8000_0000 <= x < 0x8000_0000
  type int64 = x: int | -0x8000_0000_0000_0000 <= x < 0x8000_0000_0000_0000

  /** Reinterprets the bits of a uint32 as a two's complement int32 (what `%d` prints for a uint32 argument). */
  function AsInt32(u: uint32): (r: int32)
    ensures (r as int) % UINT32_LIMIT == u as int
    ensures u < 0x8000_0000 <==> r >= 0
  {
    if u < 0x8000_0000 then u else u - UINT32_LIMIT
  }
}
