/** The optional value used for absent handles and failed steps. */
module Wrappers {

  datatype Option<+T> = None | Some(value: T)
}
