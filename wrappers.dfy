/** The optional-value wrapper used where the sources return `undefined`,
    `null` or a missing key. */
module Wrappers {
  datatype Option<+T> = None | Some(value: T)
}
