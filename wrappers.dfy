/** Small shared types: an optional value and an octet. */
module Wrappers {

  datatype Option<+T> = None | Some(value: T)

  /** One octet, as in a Node.js Buffer or a Uint8Array. */
  newtype byte = x: int | 0 <= x < 256
}
