/** The optional-value type used for absent form fields and absent stream fragments. */
module Wrappers {

  datatype Option<+T> = None | Some(value: T)
}
