/** The optional value that stands for C#'s nullable types and for a lookup that may find nothing. */
module Wrappers {
  datatype Option<+T> = None | Some(value: T)
}
