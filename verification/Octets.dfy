/** The byte of the wire format and of the inline string. */
module Octets {
  type Byte = x: nat | x < 256
}
