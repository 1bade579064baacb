/** The optional-value wrapper used for Python's `None` and for attributes
    that have never been assigned. */
module Wrappers {

  datatype Option<+T> = None | Some(value: T)
}
