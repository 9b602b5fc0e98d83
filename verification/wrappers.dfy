/** The optional-value type used where the Kotlin code works with nullable references. */
module Wrappers {

  /** `None` plays the role of Kotlin's `null`. */
  datatype Option<+T> = None | Some(value: T)
}
