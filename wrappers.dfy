/** Failure-carrying result types shared by the two components. */
module Wrappers {

  /** A value that may be absent (a nil pointer or a nil error in Go). */
  datatype Option<+T> = None | Some(value: T)

  /** A collaborator's answer: a value, or the error it returned instead. */
  datatype Result<+T, +E> = Ok(value: T) | Err(error: E)

  /** A Go `error` return: `Pass` is nil, `Fail` carries the error. */
  datatype Outcome<+E> = Pass | Fail(error: E)
}
