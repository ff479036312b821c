/** The absent-or-present value: the model's stand-in for JavaScript's `null`
    (and `undefined`) results. */
module Wrappers {

  datatype Option<T> = None | Some(value: T)
}
