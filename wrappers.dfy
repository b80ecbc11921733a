/** The optional value used for an unset run property and for "no match". */
module Wrappers {

  datatype Option<+T> = None | Some(value: T)
}
