/** Optional values, for the pointer-typed fields of the cluster objects. */
module Wrappers {

  /** A Go pointer field: `None` is nil, `Some(v)` points at `v`. */
  datatype Option<+T> = None | Some(value: T)
}
