/** The optional value used throughout for the source's `Option<T>` columns and answers. */
module Wrappers {
  datatype Option<+T> = None | Some(value: T)
}
