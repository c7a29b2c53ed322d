/** Optional values and results with an error, used for the source's nulls and exceptions. */
module Wrappers {

  datatype Option<+T> = None | Some(value: T) {
    function GetOr(default: T): T {
      if Some? then value else default
    }
  }

  datatype Result<+T, +E> = Ok(value: T) | Err(error: E)
}
