/** The optional value used for the batch step's all-or-nothing outcome. */
module Wrappers {

  datatype Option<+T> = None | Some(value: T)
}
