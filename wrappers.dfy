/** Option and Result values shared by the modules of the model. */
module Wrappers {

  /** A value that may be absent (JavaScript's `undefined` or `null`). */
  datatype Option<+T> = None | Some(value: T)

  /** Either a value or the error a JavaScript expression would throw. */
  datatype Result<+T, +E> = Success(value: T) | Failure(error: E)
}
