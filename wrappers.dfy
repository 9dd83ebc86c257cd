/** Optional values, used for a test class's declared collection name. */
module Wrappers {
  datatype Option<+T> = None | Some(value: T)
}
