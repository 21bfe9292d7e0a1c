/** The optional value used wherever the app works with Swift optionals. */
module Wrappers {

  datatype Option<+T> = None | Some(value: T)
}
