/** The optional value used for JavaScript's `null`/`undefined` and for a call that throws. */
module Wrappers {

  datatype Option<+T> = None | Some(value: T)
}
