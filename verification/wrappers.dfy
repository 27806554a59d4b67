/** Option and Result datatypes shared by the IP-pool adapter model. */
module Wrappers {

  /** A value that may be absent; `None` plays the role of Go's `nil`. */
  datatype Option<+T> = None | Some(value: T)

  /** The outcome of a call that either yields a value or fails with an error. */
  datatype Result<+R, +E> = Success(value: R) | Failure(error: E)
}
