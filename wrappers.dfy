/** The optional value that stands for a JavaScript property lookup that may find nothing. */
module Wrappers {

  /** `None` is the `undefined` a lookup of an absent key yields; `Some(v)` is a present value. */
  datatype Option<+T> = None | Some(value: T)
}
