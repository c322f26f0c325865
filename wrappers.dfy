/** Small helper datatype shared by the other modules. */
module Wrappers {

  /** An optional value: Python's "attribute present or not", "None or a value". */
  datatype Option<T> = None | Some(value: T)
}
