/** Optional values: the `None` that Python's `next(..., None)` falls back to. */
module Wrappers {

  datatype Option<+T> = None | Some(value: T)
}
