/** Ruby's `nil` for the optional arguments of the host draw calls. */
module Wrappers {

  datatype Option<+T> = None | Some(value: T)
}
