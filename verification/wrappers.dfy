/** The Option type used for nullable process pointers. */
module Wrappers {

  /** `None` stands for a NULL pointer, `Some(v)` for a pointer to `v`. */
  datatype Option<+T> = None | Some(value: T)
}
