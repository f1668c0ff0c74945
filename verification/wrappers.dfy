/** The optional-value datatype shared by the other modules. */
module Wrappers {

  /** A value that may be absent: JavaScript's `undefined` result of a search. */
  datatype Option<+T> = None | Some(value: T)
}
