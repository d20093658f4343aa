/** The optional-value datatype used across the model (Python's `None`,
    TypeScript's `null`). */
module Wrappers {
  datatype Option<+T> = None | Some(value: T)
}
