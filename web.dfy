/** What the pages see of a network request and of JavaScript values. */
module Web {
  import opened Common

  /**
   * The outcome of one `fetch(...)` followed by `response.json()` (or one
   * `axios.post`): either the promise rejected (connection refused, body not
   * JSON) or a JSON body arrived together with the status's `ok` flag.
   */
  datatype Fetched<+T> = ConnectionFailed | Received(ok: bool, data: T)

  /** JavaScript truthiness of an optional string field: present and non-empty. */
  predicate Truthy(field: Option<string>) {
    field.Some? && field.value != ""
  }

  /** JavaScript's `field || fallback` on an optional string. */
  function OrElse(field: Option<string>, fallback: string): (r: string)
    ensures Truthy(field) ==> r == field.value
    ensures !Truthy(field) ==> r == fallback
  {
    if Truthy(field) then field.value else fallback
  }
}
