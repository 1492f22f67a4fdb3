/** Failure-compatible optional value, standing in for JavaScript's `null`/`undefined`. */
module Wrappers {

  /** `None` plays the part of `null` or `undefined`; `Some(v)` a present value. */
  datatype Option<+T> = None | Some(value: T)
}
