/** The optional value used throughout the model where the program uses `None`. */
module Wrappers {
  datatype Option<+T> = None | Some(value: T)
}
