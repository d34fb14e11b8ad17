/** Optional values, used for the fields and lookups that may be absent. */
module Wrappers {

  datatype Option<+T> = None | Some(value: T)
}
