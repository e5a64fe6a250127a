/** The optional value used for the operations that throw in .NET. */
module Wrappers {

  datatype Option<+T> = None | Some(value: T)
}
