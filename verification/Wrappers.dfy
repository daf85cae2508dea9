/** The optional value the model uses where the source has a nil pointer, a
    nil slice that differs from an empty one, or a comma-ok result, and the
    outcome of an operation that can be refused. */
module Wrappers {

  datatype Option<+T> = None | Some(value: T) {
    function GetOr(default: T): T {
      match this
      case Some(v) => v
      case None => default
    }
  }

  datatype Result<+T, +E> = Success(value: T) | Failure(error: E)
}
