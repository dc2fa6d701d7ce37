/** The conventional optional value, used for the fields a working copy may lack. */
module Wrappers {

  datatype Option<+T> = None | Some(value: T)
}
