/** Option values and the outcome of an awaited network request. */
module Wrappers {

  datatype Option<+T> = None | Some(value: T)

  /** What an awaited request gives back to a page: the response body, or a
      rejected promise (network failure, non-2xx status, ...). The request
      itself is not modelled; its outcome is an input. */
  datatype Response<+T> = Ok(body: T) | Failed
}
