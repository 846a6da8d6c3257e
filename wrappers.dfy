/** The optional value that Swift writes `T?` and that the model's guard chains return. */
module Wrappers {
  datatype Option<+T> = None | Some(value: T)
}
