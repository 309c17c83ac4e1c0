/** Bytes, for what is read from and written to files and sockets. */
module Octets {
  type Byte = x: int | 0 <= x < 256
  type Bytes = seq<Byte>
}
