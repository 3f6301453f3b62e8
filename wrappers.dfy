/** The optional value a JDBC `getString` returns: `None` stands for SQL NULL. */
module Wrappers {
  datatype Option<+T> = None | Some(value: T)
}
