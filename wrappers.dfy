/** The optional value used for JavaScript's `undefined`, `null` and optional record fields. */
module Wrappers {
  datatype Option<+T> = None | Some(value: T)
}
