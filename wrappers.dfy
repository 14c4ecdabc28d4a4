/** The optional-value datatype used for error paths throughout the model. */
module Wrappers {
  datatype Option<+T> = None | Some(value: T)
}
