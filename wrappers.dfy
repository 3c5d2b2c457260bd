/** Optional values, as returned by the triangulators' `next`. */
module Wrappers {
  datatype Option<+T> = None | Some(value: T)
}
