/** Small failure-carrying datatypes shared by the dashboard model. */
module Wrappers {

  /** A value that may be absent, as a JSON field whose value is null. */
  datatype Option<+T> = None | Some(value: T)

  /**
   * The outcome of one network request as the dashboard sees it: the decoded
   * JSON array, or a failure (a non-2xx status, a network error or a JSON
   * decoding error, which all reject the awaited promise alike).
   */
  datatype Fetch<+T> = Ok(value: T) | Failed
}
