/** The optional value used for every "null or NaN" result of the model. */
module Wrappers {

  datatype Option<+T> = None | Some(value: T)
}
