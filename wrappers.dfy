/** Optional values, shared by every module of the toolchain model. */
module Wrappers {
  /** A value that may be absent; stands for a Java reference that may be null. */
  datatype Option<T> = None | Some(value: T)
}
