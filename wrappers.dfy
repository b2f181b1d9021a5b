/** Optional values and fallible results, as used by the contract's storage and handlers. */
module Wrappers {

  datatype Option<T> = None | Some(value: T) {
    /** The carried value, or `default` when there is none (Rust's `unwrap_or`). */
    function GetOr(default: T): (v: T) {
      if Some? then value else default
    }
  }

  datatype Result<T, E> = Ok(value: T) | Err(error: E)
}
