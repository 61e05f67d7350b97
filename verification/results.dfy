/** Optional values and error-carrying results used throughout the model. */
module Results {

  /** A value that may be absent, as PHP's `null` for a nullable property. */
  datatype Option<+T> = None | Some(value: T) {

    /** The wrapped value, or `default` when absent (PHP's `??` operator). */
    function GetOr(default: T): T {
      match this
      case Some(v) => v
      case None => default
    }
  }

  /** The outcome of an operation that the source may abort with an exception. */
  datatype Result<+T, +E> = Success(value: T) | Failure(error: E)
}
