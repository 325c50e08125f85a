/** Option and Result, used for the request's optional fields and for each
    handler's outcome (an id on success, an error otherwise). */
module Wrappers {

  datatype Option<+T> = None | Some(value: T) {
    /** The value when present, `default` when the field was omitted. */
    function GetOr(default: T): T {
      match this
      case Some(v) => v
      case None => default
    }
  }

  datatype Result<+R, +E> = Ok(value: R) | Err(error: E)
}
