/** The optional value used for configuration options that may be absent. */
module Wrappers {

  datatype Option<+T> = None | Some(value: T)
}
