/** Optional values and results with an error, the two shapes the gateway's
    promises and optional fields take. */
module Common {

  /** A value that may be absent (`undefined` in the source). */
  datatype Option<+T> = None | Some(value: T) {

    /** `this || other` on objects: the value when present, otherwise `other`. */
    function OrElse(other: Option<T>): Option<T> {
      if Some? then this else other
    }
  }

  /** A settled promise or a call that may throw: the value, or the error it failed with. */
  datatype Result<+T, +E> = Success(value: T) | Failure(error: E)
}
