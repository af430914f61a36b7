/** The optional and two-way outcome types the model is built from. */
module Wrappers {

  /** A value that may be absent. */
  datatype Option<+T> = None | Some(value: T)

  /** What a call produced, or the error it raised instead. */
  datatype Result<+R, +E> = Success(value: R) | Failure(error: E)
}
