/** Octets, and the byte strings made of them. */
module Bytes {
  type Byte = b: int | 0 <= b < 256
}
