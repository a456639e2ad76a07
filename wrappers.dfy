/** Failure-carrying values shared by every module of the model. */
module Wrappers {

  /** A value that may be absent: a nil reference in Go, or a read that returned an error. */
  datatype Option<+T> = None | Some(value: T)

  /** The result of a Go call that returns only an `error`: `Pass` is a nil error,
      `Fail(message)` an error whose `Error()` text is `message`. */
  datatype Outcome = Pass | Fail(message: string)
}
