/** Option and the reply shape shared by every network call of the storefront client. */
module Wrappers {

  datatype Option<+T> = None | Some(value: T)

  /** What an awaited HTTP call delivers to a handler: the response body,
      or the rejection that lands in the handler's `catch` block
      (network failure, non-2xx status). */
  datatype Reply<+T> = Answered(data: T) | Threw
}
