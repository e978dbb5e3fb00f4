/** A value that may be absent, shared by the components. */
module Wrappers {

  datatype Option<+T> = None | Some(value: T)
}
