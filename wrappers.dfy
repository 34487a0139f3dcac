/**
  Small value types shared by the timer and storage models.
 */
module Wrappers {

  /** A value or its absence; stands for a C pointer that may be NULL. */
  datatype Option<+T> = None | Some(value: T)

  /** The C type `uint8_t`, also used for the bytes of a `char` array. */
  type UInt8 = x: int | 0 <= x <= 255
}
