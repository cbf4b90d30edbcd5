/** The optional value used wherever the program returns None or raises. */
module Wrappers {

  datatype Option<+T> = None | Some(value: T)
}
