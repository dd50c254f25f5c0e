/** Optional values, shared by every module of the model. */
module Wrappers {

  /** A value that may be absent: Go's nil pointer, or the `(value, ok)` pair. */
  datatype Option<+T> = None | Some(value: T)
}
