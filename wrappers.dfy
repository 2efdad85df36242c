/** Optional values: a value that may be absent (`null` or a missing storage key). */
module Wrappers {

  datatype Option<+T> = None | Some(value: T)
}
