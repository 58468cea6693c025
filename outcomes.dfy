/** Optional values and the outcome of a network call. */
module Outcomes {

  /** A value that may be absent (`undefined` in the source). */
  datatype Option<+T> = None | Some(value: T)

  /** The outcome of an HTTP call: the response body, or any error at all.
      `Err` covers a non-2xx status, a network failure, and a 2xx answer whose
      body cannot be destructured (the TypeError that follows is caught by the
      same `.catch` or `try` as the others). The source never inspects the error. */
  datatype Result<+T> = Ok(value: T) | Err
}
