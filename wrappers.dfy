/** Optional values: the source's `null`, `undefined` and optional fields. */
module Wrappers {
  datatype Option<+T> = None | Some(value: T)
}
