/** The optional-value wrapper shared by the other modules. */
module Wrappers {

  /** A value that may be absent; stands for JavaScript's `undefined`. */
  datatype Option<+T> = None | Some(value: T)
}
