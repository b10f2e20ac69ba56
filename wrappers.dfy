/** The optional value used for JavaScript's `null`, `undefined` and missing arguments. */
module Wrappers {

  datatype Option<+T> = None | Some(value: T)
}
