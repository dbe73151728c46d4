/** Optional values and results: Python's `None`, absent dictionary keys and exceptions. */
module Wrappers {

  /** `None` stands for Python's `None` and for a key absent from a state update or record. */
  datatype Option<+T> = None | Some(value: T) {
    /** `d.get(key, default)` on a key whose presence this value records. */
    function GetOr(default: T): T {
      match this
      case Some(v) => v
      case None => default
    }
  }

  /** The outcome of an operation that raises on some inputs. */
  datatype Result<+T, +E> = Ok(value: T) | Err(error: E)
}
