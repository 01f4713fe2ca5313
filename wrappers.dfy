/** The optional value shared by both components: Python's `None` or a value. */
module Wrappers {

  datatype Option<+T> = None | Some(value: T)
}
