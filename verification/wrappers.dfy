/** Optional timestamps, as returned by a buffer's `pts()` and `dts()`
    accessors: either no value, or one clock time. */
module Wrappers {

  datatype Option<T> = None | Some(value: T) {

    /** Rust's `unwrap_or`: the held value when there is one, `fallback` otherwise. */
    function UnwrapOr(fallback: T): (r: T)
      ensures Some? ==> r == value
      ensures None? ==> r == fallback
    {
      if Some? then value else fallback
    }
  }
}
