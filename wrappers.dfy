/** Optional values and results shared by the form models. */
module Wrappers {

  /** A value that may be absent: `None` stands for JavaScript's `undefined`
      (or, for a parsed number, for NaN). */
  datatype Option<T> = None | Some(value: T)

  /** The outcome of submitting a form: the record handed to the submit
      callback, or the fields that failed validation. */
  datatype Result<T, E> = Ok(value: T) | Err(error: E)
}
