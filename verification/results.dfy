/** Failure-carrying wrappers shared by the resource-access-manager model. */
module Results {

  /** An optional value: a keyword argument that may be absent. */
  datatype Option<+T> = None | Some(value: T) {
    /** The value, or `default` when absent (Python's `kwargs.get(key, default)`). */
    function GetOr(default: T): T {
      match this
      case Some(v) => v
      case None => default
    }
  }

  /** The result of an operation that either returns a value or raises. */
  datatype Result<+T, +E> = Success(value: T) | Failure(error: E)

  /** The result of a validation that either passes or raises. */
  datatype Outcome<+E> = Pass | Fail(error: E)
}
