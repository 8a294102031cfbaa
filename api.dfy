/**
 * What a call through the HTTP client gives back, as seen by the views:
 * the response body on success, or an error that may carry a server response.
 */
module Api {
  import opened Wrappers
  import opened Text

  /** `error.response`: the status and the `message`/`detail` fields of its body. */
  datatype ErrorResponse = ErrorResponse(status: nat, message: Option<String>, detail: Option<String>)

  /** A settled request: `Ok(response.data)` or a thrown error with its optional `response`. */
  datatype ApiResult<T> = Ok(data: T) | Err(response: Option<ErrorResponse>)

  /** A JavaScript string used as a condition: present and non-empty. */
  predicate Truthy(s: Option<String>) {
    s.Some? && s.value != []
  }

  /** `s || fallback` on an optional string. */
  function OrElse(s: Option<String>, fallback: String): (r: String)
    ensures Truthy(s) ==> r == s.value
    ensures !Truthy(s) ==> r == fallback
  {
    if Truthy(s) then s.value else fallback
  }

  /** `error.response?.data?.message || fallback`. */
  function MessageOr(response: Option<ErrorResponse>, fallback: String): (r: String)
    ensures r != fallback ==> response.Some? && response.value.message == Some(r) && r != []
    ensures response.None? ==> r == fallback
    ensures response.Some? && Truthy(response.value.message) ==> r == response.value.message.value
    ensures response.Some? && !Truthy(response.value.message) ==> r == fallback
  {
    if response.Some? then OrElse(response.value.message, fallback) else fallback
  }

  /** `error.response?.data?.detail || fallback`. */
  function DetailOr(response: Option<ErrorResponse>, fallback: String): (r: String)
    ensures r != fallback ==> response.Some? && response.value.detail == Some(r) && r != []
    ensures response.None? ==> r == fallback
    ensures response.Some? && Truthy(response.value.detail) ==> r == response.value.detail.value
    ensures response.Some? && !Truthy(response.value.detail) ==> r == fallback
  {
    if response.Some? then OrElse(response.value.detail, fallback) else fallback
  }
}
