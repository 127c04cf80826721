/** The optional value used where the application passes or returns `None`. */
module Wrappers {

  datatype Option<+T> = None | Some(value: T)
}
