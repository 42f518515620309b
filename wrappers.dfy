/** Stand-in for JavaScript's null / absent values. */
module Wrappers {

  datatype Option<+T> = None | Some(value: T)
}
