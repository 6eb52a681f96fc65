/** Optional values and error-carrying results shared by the checkout and webhook models. */
module Wrappers {

  /** A value that may be absent, as Python's `None`. */
  datatype Option<+T> = None | Some(value: T)

  /** The outcome of a call into the payment processor: a value, or the message of the raised error. */
  datatype Result<+R, +E> = Success(value: R) | Failure(error: E)
}
