/** A value that may be absent: models a C# reference that may be null. */
module Wrappers {
  datatype Option<+T> = None | Some(value: T)
}
