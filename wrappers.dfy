/** Failure-carrying results for the places where the Python code returns
    `None` or raises an exception instead of producing a value. */
module Wrappers {

  datatype Option<+T> = None | Some(value: T)

  datatype Result<+R, +E> = Success(value: R) | Failure(error: E)

  /** The two Python exceptions the classification code raises. */
  datatype PyError =
    | ValueError(message: string)
    | KeyError(key: string)
}
