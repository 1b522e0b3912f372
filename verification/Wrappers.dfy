/** Values shared by the models of every component. */
module Wrappers {

  /** A value that may be absent: the source's `Option`. */
  datatype Option<+T> = None | Some(value: T)

  /** A value or the error that prevented it: the source's `Result`, or a raised exception. */
  datatype Result<+T, +E> = Success(value: T) | Failure(error: E)
}
