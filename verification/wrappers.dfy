/** Optional values, used for Python's `None` and for operations that can fail. */
module Wrappers {
  datatype Option<T> = None | Some(value: T)
}
