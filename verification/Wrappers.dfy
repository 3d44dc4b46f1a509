/** Failure-compatible datatypes shared by every module. */
module Wrappers {

  /** One more than the largest unsigned 64-bit number. */
  const TWO_64 := 0x1_0000_0000_0000_0000

  datatype Option<+T> = None | Some(value: T)

  datatype Result<+T, +E> = Ok(value: T) | Err(error: E)
}
