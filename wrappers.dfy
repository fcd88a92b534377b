/** The optional value used for fields that a JSON reply or the page state may lack. */
module Wrappers {

  datatype Option<+T> = None | Some(value: T)
}
