/** Optional values, and results that are refused with a reason. */
module Wrappers {
  datatype Option<T> = None | Some(value: T) {
    function UnwrapOr(default: T): T {
      if Some? then value else default
    }
  }

  datatype Result<T, E> = Ok(value: T) | Refused(why: E)
}
