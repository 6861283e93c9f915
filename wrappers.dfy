/** Option and Result, the two failure-carrying shapes used by the rest of the model. */
module Wrappers {

  /** A value that may be missing: Python's None, JavaScript's null/undefined. */
  datatype Option<+T> = None | Some(value: T) {
    function GetOr(default: T): T {
      match this
      case Some(v) => v
      case None => default
    }
  }

  /** The outcome of an operation that either yields a value or raises an error. */
  datatype Result<+R, +E> = Ok(value: R) | Err(error: E)

  /**
   * A string that is present and not empty: how JavaScript's `if (x)` / `x || d` and Python's
   * `if x:` read an optional string.
   */
  predicate Truthy(s: Option<string>)
  {
    s.Some? && s.value != ""
  }
}
