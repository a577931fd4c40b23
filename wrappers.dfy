/** Option and Outcome values used for the optional props and the rejected-file results. */
module Wrappers {

  datatype Option<+T> = None | Some(value: T)

  /** Pass, or Fail with the reason the operation was refused. */
  datatype Outcome<+E> = Pass | Fail(error: E)
}
