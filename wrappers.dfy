/** The optional value used for JavaScript's `null` and for `NaN`. */
module Wrappers {

  datatype Option<+T> = None | Some(value: T)
}
