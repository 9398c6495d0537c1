/** A value that may be absent: a selected invoice id, the result of a lifecycle step. */
module Wrappers {

  datatype Option<+T> = None | Some(value: T)
}
