/** Optional values and outcomes shared by every module. */
module Wrappers {
  datatype Option<+T> = None | Some(value: T)

  /** `Raised` stands for a Python exception that leaves the enclosing call. */
  datatype Result<+T, +E> = Done(value: T) | Raised(error: E)
}
