/** The optional value used wherever the source returns a null pointer, an
    empty handle or throws instead of producing a value. */
module Wrappers {

  datatype Option<+T> = None | Some(value: T)
}
