/** Byte strings: keys, values, commands and wire payloads are all sequences of bytes. */
module Bytes {
  newtype Byte = x: int | 0 <= x < 256

  type Bytes = seq<Byte>

  datatype Option<+T> = None | Some(value: T)
}
