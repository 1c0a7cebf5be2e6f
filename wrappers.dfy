/** The optional-value datatype shared by the modules of the menu editor model. */
module Wrappers {

  /** A value that may be absent: PHP's `false` or `null` where the source returns one. */
  datatype Option<+T> = None | Some(value: T)
}
