/** Error values and the result shapes that the Go functions return. */
module Errors {

  /** An error value: one made from a message (`errors.New`, `fmt.Errorf`),
      or another error with a context string put in front of it (`errors.Wrap`).
      Errors raised by collaborators outside this model (the file system, the
      network, the watcher) are values of this type supplied by the caller. */
  datatype Error =
    | Message(text: string)
    | Wrapped(context: string, cause: Error)

  /** A nil-able value: `None` stands for Go's nil pointer. */
  datatype Option<+T> = None | Some(value: T)

  /** The `(T, error)` pair of a Go function, exactly one side meaningful. */
  datatype Result<+T> = Success(value: T) | Failure(error: Error)

  /** The result of a Go call that returns only an `error`. */
  datatype Outcome = Ok | Fail(error: Error)
}
