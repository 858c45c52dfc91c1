/** The failure-free wrapper shared by the modules below. */
module Wrappers {

  datatype Option<+T> = None | Some(value: T)
}
