/** The optional-value datatype used for the JavaScript built-ins that can fail. */
module Wrappers {

  datatype Option<+T> = None | Some(value: T)
}
