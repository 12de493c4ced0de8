/** Small value wrappers shared by the other modules. */
module Wrappers {

  /** A value that may be missing: JavaScript's `undefined` made explicit. */
  datatype Option<+T> = None | Some(value: T)

  /** The result of an awaited computation: it settles with a value, or it is rejected. */
  datatype Outcome<+T> = Done(value: T) | Failed
}
