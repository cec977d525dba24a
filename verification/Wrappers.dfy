/** Optional values and outcomes of calls that can fail. */
module Wrappers {
  datatype Option<+T> = None | Some(value: T)
}
