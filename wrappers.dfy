/** The optional value used where the source passes `None` or raises on a missing value. */
module Wrappers {

  datatype Option<+T> = None | Some(value: T)
}
