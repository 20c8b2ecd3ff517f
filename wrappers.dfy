/** Optional values, for the lookups and fields that may be missing. */
module Wrappers {

  datatype Option<+T> = None | Some(value: T)
}
