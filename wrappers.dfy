/** Option and Result, used for the values JavaScript expresses with null and exceptions. */
module Wrappers {

  /** A value that may be absent (JavaScript `null`). */
  datatype Option<+T> = None | Some(value: T)

  /** The outcome of an operation that can throw. */
  datatype Result<+R, +E> = Success(value: R) | Failure(error: E)
}

/** Unsigned 8-bit samples, the element type of an I420 frame buffer. */
module Bytes {

  newtype Byte = b: int | 0 <= b < 256
}
