/** Swift's `Optional`, used where the source returns or unwraps an optional value. */
module Optionals {

  datatype Option<T> = None | Some(value: T)
}
