/** Failure-compatible result types shared by the model. */
module Wrappers {

  /** A value that may be absent (Python's `None`). */
  datatype Option<+T> = None | Some(value: T) {
    /** The value, or `default` when absent. */
    function GetOr(default: T): T {
      match this
      case Some(v) => v
      case None => default
    }
  }

  /**
   * A key of a JSON object: missing, present with a null value, or present
   * with a value.
   */
  datatype Key<+T> = KeyMissing | KeyNull | KeyValue(value: T) {
    /** `.get(key)`: nothing for a missing key and for a null value alike. */
    function Get(): Option<T> {
      if KeyValue? then Some(value) else None
    }

    /** `.get(key, default)`: the default replaces only a missing key; a null value stays `None`. */
    function GetOr(default: T): Option<T> {
      match this
      case KeyMissing => Some(default)
      case KeyNull => None
      case KeyValue(v) => Some(v)
    }
  }

  /** A computation that either yields a value or fails with an error. */
  datatype Result<+T, +E> = Success(value: T) | Failure(error: E)

  /** A side-effecting step that either completes or raises an error. */
  datatype Outcome<+E> = Pass | Fail(error: E)
}
