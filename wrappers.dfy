/** Small shared datatypes. */
module Wrappers {

  /** A value that may be missing: Python's `None` or an exception path. */
  datatype Option<T> = None | Some(value: T)
}
