/** Types shared by every component. */
module Basics {

  datatype Option<+T> = None | Some(value: T)

  /** A 128-bit identifier; identifiers are ordered as the integers they stand for. */
  type Uuid = n: nat | n < 0x1_0000_0000_0000_0000_0000_0000_0000_0000
}
