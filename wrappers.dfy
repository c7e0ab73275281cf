/** Optional values and success/failure results, the model's stand-ins for
    Ruby's nil and for raised exceptions. */
module Wrappers {

  datatype Option<+T> = None | Some(value: T) {
    /** The value, or `default` when there is none. */
    function GetOr(default: T): T {
      match this
      case Some(v) => v
      case None => default
    }
  }

  datatype Result<+T, +E> = Success(value: T) | Failure(error: E)

  /** The result of a step that either completes or aborts with an error. */
  datatype Outcome<+E> = Pass | Fail(error: E)
}
