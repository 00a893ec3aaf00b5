/** Failure-compatible wrappers shared by the modules of this model. */
module Wrappers {

  /** A value that may be absent (Ruby's `nil`). */
  datatype Option<+T> = None | Some(value: T)

  /** The outcome of an operation that either completes or raises an error. */
  datatype Outcome<+E> = Pass | Fail(error: E)
}
