/** The optional value used throughout the model for SQL NULLs, cache misses and
    absent rows. */
module Wrappers {
  datatype Option<+T> = None | Some(value: T)
}
