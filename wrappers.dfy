/** The optional value and the success-or-error outcome shared by the
    site's modules. */
module Wrappers {

  /** A value that may be missing: a JavaScript `undefined`, or a number
      parse that produced NaN. */
  datatype Option<+T> = None | Some(value: T)

  /** The outcome of an operation that can throw. */
  datatype Result<+R, +E> = Success(value: R) | Failure(error: E)
}
