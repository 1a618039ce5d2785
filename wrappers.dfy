/** The optional value used for SQL rows that may be absent (`fetchone()` returning None). */
module Wrappers {
  datatype Option<+T> = None | Some(value: T)
}
