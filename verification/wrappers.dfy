/** The optional-value type used for partial readings (scanning, prefix stripping). */
module Wrappers {

  datatype Option<+T> = None | Some(value: T)
}
