/** The optional-value wrapper used for the source's nullable returns. */
module Wrappers {

  /** `None` stands for the source's `null`. */
  datatype Option<+T> = None | Some(value: T)
}
