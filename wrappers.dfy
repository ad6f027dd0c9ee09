/** Option and Result, used for absent arguments and for the configuration error. */
module Wrappers {

  datatype Option<T> = None | Some(value: T) {
    /** The value when present, `otherwise` when absent (Python's `d.get(k, otherwise)`). */
    function GetOr(otherwise: T): T {
      match this
      case Some(v) => v
      case None => otherwise
    }
  }

  datatype Result<T, E> = Ok(value: T) | Err(error: E)
}
