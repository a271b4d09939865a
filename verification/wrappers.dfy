/** Failure-carrying result type shared by the model: a Java method that can
    throw becomes a function returning `Result`, with the exception as the
    `Failure` value. */
module Wrappers {

  datatype Option<+T> = None | Some(value: T)

  datatype Result<+R, +E> = Success(value: R) | Failure(error: E)
}
