/** Option, Result and the error values the asset returns. */
module Wrappers {

  datatype Option<+T> = None | Some(value: T)

  /** An error as built by github.com/pkg/errors: `New` gives a leaf with a
      message, `Wrap`/`Wrapf` put a message in front of a cause. */
  datatype Error = Error(msg: string) | Wrapped(msg: string, cause: Error)

  /** The `(T, error)` pair of a Go call: exactly one of the two is set. */
  datatype Result<+T> = Success(value: T) | Failure(error: Error)
}
