/** The optional value the source writes as a value-or-null. */
module Wrappers {
  datatype Option<T> = None | Some(value: T)
}
