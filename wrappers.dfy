/** A value that may be unavailable, shared by the numeric reductions and
    the analyses built on them. */
module Wrappers {

  datatype Option<T> = None | Some(value: T)
}
