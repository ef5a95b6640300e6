/** Optional values: a record that may be missing, a broadcast that may not happen. */
module Wrappers {
  datatype Option<+T> = None | Some(value: T)
}
