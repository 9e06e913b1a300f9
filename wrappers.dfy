/** Optional values: `null`/`undefined` in the original. */
module Wrappers {
  datatype Option<T> = None | Some(value: T)
}
