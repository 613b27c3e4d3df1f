/** Optional values, used for Go's nil pointers, absent map entries and "no error". */
module Wrappers {
  datatype Option<T> = None | Some(value: T)
}
