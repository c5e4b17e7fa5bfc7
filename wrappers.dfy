/** The optional value that stands for JavaScript's `undefined` / `null`. */
module Wrappers {

  datatype Option<+T> = None | Some(value: T)
}
