/** Option and Result values for the places where the source returns null,
    nothing, or refuses an action. */
module Wrappers {
  datatype Option<+T> = None | Some(value: T)

  datatype Result<+T, +E> = Success(value: T) | Failure(error: E)
}
