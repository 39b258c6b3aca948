/** The optional value used wherever an operation may produce nothing. */
module Wrappers {

  /** `Some(value)` when there is a value, `None` when there is not. */
  datatype Option<+T> = None | Some(value: T)
}
