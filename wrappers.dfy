/** The optional-value type shared by the model (TypeScript's `T | undefined` / `T | null`). */
module Wrappers {

  datatype Option<+T> = None | Some(value: T)
}
