/** Small helper types shared by the other modules. */
module Wrappers {

  /** An optional value: `None` stands for "no value" (Python's missing attribute or `None`). */
  datatype Option<+T> = None | Some(value: T)
}
