/** The optional value used for absent arguments and for handler results
    that were never written. */
module Wrappers {

  datatype Option<+T> = None | Some(value: T)
}
