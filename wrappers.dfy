/** The Option type used for absent rows, missing request fields and failed parses. */
module Wrappers {
  datatype Option<+T> = None | Some(value: T)
}
