/** The optional value used where the parser hands back "nothing found" (Python's `None`). */
module Wrappers {

  datatype Option<+T> = None | Some(value: T)
}
