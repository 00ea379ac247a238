/** The optional value used wherever the plugin sees Python's `None`. */
module Wrappers {

  datatype Option<+T> = None | Some(value: T)
}
