/** Unsigned 8-bit values, the element type of a Uint8Array. */
module Bytes {

  type Byte = x: int | 0 <= x < 256
}
