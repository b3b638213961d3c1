/** The nullable values of the C# source (`string?`, `int?`, `bool?`, ...) as an Option. */
module Wrappers {

  datatype Option<+T> = None | Some(value: T)
}
