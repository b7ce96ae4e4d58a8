/** Optional values and results shared by the other modules. */
module Wrappers {

  datatype Option<T> = None | Some(value: T)

  /** The result of an operation that the source may abort with a panic. */
  datatype Outcome<T> = Ok(value: T) | Panic
}
