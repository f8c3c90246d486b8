/** An optional value, used where the source raises or has no value. */
module Wrappers {

  /** `None` stands for a Python exception (or a missing value); `Some` for a result. */
  datatype Option<+T> = None | Some(value: T)
}
