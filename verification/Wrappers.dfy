/** The optional value the whole model uses for the source's null and undefined. */
module Wrappers {
  datatype Option<+T> = None | Some(value: T)
}
