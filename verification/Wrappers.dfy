/** Optional values, for the source's nullable fields and lookups. */
module Wrappers {
  datatype Option<+T> = None | Some(value: T)
}
