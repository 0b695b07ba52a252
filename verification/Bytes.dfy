/** Go's byte: text and wire data are sequences of these. */
module Bytes {
  newtype Byte = b: int | 0 <= b < 256
}
