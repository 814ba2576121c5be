/** The optional-value datatype used for a command's icon. */
module Wrappers {

  datatype Option<+T> = None | Some(value: T)

}
