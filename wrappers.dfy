/** An optional value: a state slot that may be empty (`null` or `undefined`). */
module Wrappers {
  datatype Option<+T> = None | Some(value: T)
}
