/** Optional values. */
module Wrappers {

  /** A value that may be absent: the C code's NULL pointer, FALSE return or TAGID_NULL. */
  datatype Option<+T> = None | Some(value: T)
}
