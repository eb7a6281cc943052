/** Optional values and fallible results, used for the sparse metadata fields
    and for the validating options factory. */
module Wrappers {

  datatype Option<+T> = None | Some(value: T) {
    function GetOr(default: T): T {
      match this
      case Some(v) => v
      case None => default
    }
  }

  /** A result that is either a value or an error message. */
  datatype Result<+T> = Ok(value: T) | Err(error: string)
}
