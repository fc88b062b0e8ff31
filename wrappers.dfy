/** Optional values, results and error outcomes: the model's stand-ins for Go's
    nil pointers and `(value, error)` returns. */
module Wrappers {

  /** A Go pointer that may be nil. */
  datatype Option<+T> = None | Some(value: T) {
    function GetOr(default: T): T {
      match this
      case Some(v) => v
      case None => default
    }
  }

  /** A remote call's answer: the value it returned, or the error it failed with. */
  datatype Result<+T, +E> = Ok(value: T) | Err(error: E) {

    /** What a Go caller holds in the value variable: nil on failure. */
    function ToOption(): Option<T> {
      match this
      case Ok(v) => Some(v)
      case Err(_) => None
    }

    /** What a Go caller holds in the error variable. */
    function ToOutcome(): Outcome<E> {
      match this
      case Ok(_) => Pass
      case Err(e) => Fail(e)
    }
  }

  /** A Go `error` result: nil (Pass) or an error value. */
  datatype Outcome<+E> = Pass | Fail(error: E)
}
