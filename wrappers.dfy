/** Option and Result values for the error paths of the model. */
module Wrappers {

  datatype Option<+T> = None | Some(value: T)

  /** A call that either returns a value or raises an exception with the given text. */
  datatype Result<+R> = Success(value: R) | Failure(error: string)
}
