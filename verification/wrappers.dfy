/** The optional value used wherever the editor hands out a nullable pointer. */
module Wrappers {

  /** `None` plays the role of a null pointer; `Some(v)` a non-null one. */
  datatype Option<+T> = None | Some(value: T)
}
