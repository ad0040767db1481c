/** The optional value used where the source returns `None` or swallows a failure. */
module Wrappers {

  datatype Option<+T> = None | Some(value: T)
}
