/** Optional values, for the source's nullable fields and for readers that can fail. */
module Wrappers {

  datatype Option<+T> = None | Some(value: T)
}
