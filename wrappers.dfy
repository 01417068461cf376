/** The optional value of JavaScript's `undefined`/`null` slots. */
module Wrappers {

  datatype Option<+T> = None | Some(value: T)
}
