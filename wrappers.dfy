/** Optional values: a parse that may fail, a queue receive that may find nothing. */
module Wrappers {
  datatype Option<+T> = None | Some(value: T)
}
