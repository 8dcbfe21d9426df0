/** Small value types shared by every module of the storefront model. */
module Wrappers {

  datatype Option<+T> = None | Some(value: T)

  /** How a call through the axios client ends: a 2xx response with its body,
      an error without an "unauthorized" status, or a 401. */
  datatype Reply<+T> = Ok(body: T) | Fail | Unauthorized

  /** How a `fetch` call ends. `fetch` resolves on every HTTP status
      (`ok` says whether it was 2xx) and rejects only on network errors. */
  datatype FetchOutcome = Resolved(ok: bool) | Rejected
}
