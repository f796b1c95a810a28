/** The optional value used where the page tests whether something exists. */
module Wrappers {

  datatype Option<+T> = None | Some(value: T)
}
