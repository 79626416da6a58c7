/** Optional values, used for lookups that may miss and replies that may be absent. */
module Wrappers {
  datatype Option<+T> = None | Some(value: T)
}
