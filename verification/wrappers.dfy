/** Failure-carrying result types shared by the whole model. */
module Wrappers {

  /** A value that may be missing: Python's `None`, or a lookup that raised. */
  datatype Option<+T> = None | Some(value: T)
}
