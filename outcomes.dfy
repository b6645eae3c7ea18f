/** Values that stand in for C#'s nullable references and thrown exceptions. */
module Outcomes {

  /** A value that may be absent; `None` plays the part of C#'s `null`. */
  datatype Option<+T> = None | Some(value: T)

  /** The outcome of a call that either returns a value or throws an exception. */
  datatype Result<+T, +E> = Success(value: T) | Failure(error: E)
}
