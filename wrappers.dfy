/** Optional values and results that carry either a value or a thrown exception. */
module Wrappers {

  /** A value that may be absent; stands for a Java reference that may be null. */
  datatype Option<+T> = None | Some(value: T)

  /** The outcome of a Java call: the value it returned, or what it threw. */
  datatype Result<+R, +E> = Ok(value: R) | Err(error: E)
}
