/** Optional values, for the Python `None` sentinels. */
module Wrappers {
  datatype Option<+T> = None | Some(value: T)
}
