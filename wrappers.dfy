/** The optional value the model's readers and parsers return: None where
    the scripts raise (bad integer, end of input) or find nothing. */
module Wrappers {
  datatype Option<+T> = None | Some(value: T)
}
