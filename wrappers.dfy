/** Small helper datatypes shared by the other modules. */
module Wrappers {

  /** A value that may be absent: the TypeScript `T | null` and `T | undefined`. */
  datatype Option<+T> = None | Some(value: T)
}
