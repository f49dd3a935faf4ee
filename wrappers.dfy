/** Optional values, used wherever the source has a possibly-missing value. */
module Wrappers {
  datatype Option<+T> = None | Some(value: T)
}
