/** The option type that every layer shares. */
module Wrappers {
  datatype Option<T> = None | Some(value: T)
}
