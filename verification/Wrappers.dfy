/** Optional values (the source's `null`) and results (the source's exceptions). */
module Wrappers {

  datatype Option<+T> = None | Some(value: T)
  {
    /** The source's `value ?? fallback`. */
    function GetOr(fallback: T): T {
      if Some? then value else fallback
    }
  }

  datatype Result<+T, +E> = Ok(value: T) | Err(error: E)
}
