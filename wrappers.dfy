/** Optional values and success/failure results, as Swift's `Optional` and `Result`. */
module Wrappers {

  datatype Option<+T> = None | Some(value: T) {
    /** Swift's `??`: the wrapped value, or `default` when there is none. */
    function GetOr(default: T): T {
      match this
      case Some(v) => v
      case None => default
    }
  }

  datatype Result<+T, +E> = Success(value: T) | Failure(error: E)
}
