/** Optional values, for Go's nil pointers, "not found" results and empty error slots. */
module Wrappers {
  datatype Option<+T> = None | Some(value: T)
}
