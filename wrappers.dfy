/** The usual optional value: `None` stands for a .NET `null`. */
module Wrappers {

  datatype Option<+T> = None | Some(value: T)
}
