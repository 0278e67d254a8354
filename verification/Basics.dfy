module Basics {
  type Id = string

  datatype Option<+T> = None | Some(value: T)
}
