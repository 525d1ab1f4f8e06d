/** Optional values and error-carrying results, standing for Python's `None`
    and for the exceptions the workflow raises. */
module Wrappers {

  /** A value that may be absent (`None` in Python). */
  datatype Option<T> = None | Some(value: T) {
    /** The value, or `default` when absent (Python's `x or default` / `.get(k, default)`). */
    function GetOr(default: T): T {
      if Some? then value else default
    }
  }

  /** A computed value, or the error that would have been raised instead. */
  datatype Result<T, E> = Ok(value: T) | Err(error: E)

  /** A check that either passes or raises an error. */
  datatype Outcome<E> = Pass | Fail(error: E)
}
