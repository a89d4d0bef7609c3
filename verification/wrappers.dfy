/** The optional value used for every key of the search payload that may be missing. */
module Wrappers {

  datatype Option<+T> = None | Some(value: T)
}
