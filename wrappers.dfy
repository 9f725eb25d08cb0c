/** The optional value used wherever the editor stores `null` for "no such object". */
module Wrappers {

  datatype Option<+T> = None | Some(value: T)
}
