/** The optional-value datatype used for JavaScript's `null` / "absent" slots. */
module Wrappers {
  datatype Option<+T> = None | Some(value: T)
}
