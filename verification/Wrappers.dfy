// The optional value shared by every component of the project.
module Wrappers {
  datatype Option<+T> = None | Some(value: T)
}
