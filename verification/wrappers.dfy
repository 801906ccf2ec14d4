/** Optional values and success-or-failure results, used throughout the model. */
module Wrappers {

  /** A value that may be absent: the model's stand-in for a nullable field. */
  datatype Option<+T> = None | Some(value: T) {

    /** The wrapped value, or `default` when there is none. */
    function GetOr(default: T): T {
      match this
      case Some(v) => v
      case None => default
    }
  }

  /** Either a value or the reason no value could be produced. */
  datatype Result<+T, +E> = Ok(value: T) | Err(error: E)
}
