/**
 * Fixed-width integer types of the OPC UA builtin type system
 * (UA_Byte, UA_UInt16, UA_UInt32, UA_Int32).
 */
module Primitives {

  newtype uint8 = x: int | 0 <= x < 0x100
  newtype uint16 = x: int | 0 <= x < 0x1_0000
  newtype uint32 = x: int | 0 <= x < 0x1_0000_0000
  newtype int32 = x: int | -0x8000_0000 <= x < 0x8000_0000

  /** Number of distinct uint32 values; unsigned 32-bit arithmetic wraps modulo this. */
  const UINT32_MODULUS: int := 0x1_0000_0000

  /** A byte sequence, the content of std::string / std::string_view and of UA_String buffers. */
  type Bytes = seq<uint8>
}
