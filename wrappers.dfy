/** Option and Result datatypes shared by the other modules. */
module Wrappers {

  /** A value that may be missing, as a JavaScript `undefined` is. */
  datatype Option<+T> = None | Some(value: T)

  /** Either a value or the reason there is none. */
  datatype Result<+R, +E> = Success(value: R) | Failure(error: E)
}
