/** The optional-value datatype used to model a parse that may fail. */
module Wrappers {

  /** `None` stands for a failure, `Some(v)` for a successful result `v`. */
  datatype Option<+T> = None | Some(value: T)
}
