/** The optional value used for results that may be absent (a setup that does not match, an
    indicator value that is not yet defined, a fetch that failed). */
module Wrappers {
  datatype Option<+T> = None | Some(value: T)
}
