/** Optional values. `None` also stands for a Go nil slice, map or pointer. */
module Wrappers {
  datatype Option<+T> = None | Some(value: T)
}
