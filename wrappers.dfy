/** Optional values: a slot that may be empty, a search that may find nothing. */
module Wrappers {

  datatype Option<+T> = None | Some(value: T)
}
