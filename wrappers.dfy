/** Optional values, for Go pointers and slices that may be nil. */
module Wrappers {
  datatype Option<+T> = None | Some(value: T)
}
