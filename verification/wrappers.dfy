/** The optional result of a selection rule that may find no server (Python's `None`). */
module Wrappers {

  datatype Option<+T> = None | Some(value: T)

}
