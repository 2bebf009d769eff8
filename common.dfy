/** Values shared by the client pages and the backend: optional values, the
    settled state of an awaited request, and the error text a page shows. */
module Common {

  datatype Option<T> = None | Some(value: T)

  /** What a page reads from a thrown error: `err.response?.data?.detail`.
      Errors raised without a server response (a network failure, a token that
      does not decode, a RangeError) carry no detail. */
  datatype Error = Error(detail: Option<string>)

  /** The settled state of one awaited request: its response body, or the error it was rejected with. */
  datatype Outcome<T> = Resolved(value: T) | Rejected(error: Error)

  /** JavaScript truthiness of an optional string: absent and "" are falsy. */
  predicate Truthy(s: Option<string>)
  {
    s.Some? && s.value != ""
  }

  /** `err.response?.data?.detail || fallback`: a server detail is shown when
      it is a non-empty string, otherwise the page's fixed fallback. */
  function ErrorText(e: Error, fallback: string): (r: string)
    ensures Truthy(e.detail) ==> r == e.detail.value
    ensures !Truthy(e.detail) ==> r == fallback
    ensures fallback != "" ==> r != ""
  {
    if Truthy(e.detail) then e.detail.value else fallback
  }
}
