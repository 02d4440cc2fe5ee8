/** Option and Outcome values used where the control would see `undefined`/`null`
    or would throw. */
module Wrappers {

  datatype Option<+T> = None | Some(value: T)

  /** Pass, or the error that stops an operation part way. */
  datatype Outcome<+E> = Pass | Fail(error: E)
}
