/** Optional values and success/failure results, as Swift's `Optional` and `Result` are used by the cache. */
module Results {

  datatype Option<+T> = None | Some(value: T) {
    /** Swift's `??`: the wrapped value, or the fallback when there is none. */
    function OrElse(fallback: Option<T>): Option<T> {
      if Some? then this else fallback
    }

    function GetOr(default: T): T {
      if Some? then value else default
    }
  }

  datatype Result<+R, +E> = Success(value: R) | Failure(error: E)

  /** A result that carries no value on success (Swift's `Result<(), E>`). */
  datatype Outcome<+E> = Pass | Fail(error: E)
}
