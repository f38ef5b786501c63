/** The optional-value type shared by the SDK model and the wire schema. */
module Wrappers {

  datatype Option<+T> = None | Some(value: T)
}
