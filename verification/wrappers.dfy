/** Optional values, used wherever the visitor holds a pointer that may be null. */
module Wrappers {
  datatype Option<T> = None | Some(value: T)
}
