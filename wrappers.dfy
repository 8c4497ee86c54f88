/** The optional value used for the nullable pointers and optional backend state of the model. */
module Wrappers {

  datatype Option<+T> = None | Some(value: T)
}
