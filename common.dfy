/** Shared vocabulary of the serverless handlers: optional values, JavaScript truthiness of
    optional string fields, how a Lambda invocation delivers its input, and what a handler
    returns. */
module Common {

  datatype Option<T> = None | Some(value: T)

  datatype Result<T, E> = Ok(value: T) | Err(error: E)

  /** JavaScript truthiness of an optional string field: `undefined`, `null` and `''` are falsy. */
  predicate Truthy(s: Option<string>) {
    s.Some? && s.value != ""
  }

  /** The value of `s || ''`. */
  function OrEmpty(s: Option<string>): string {
    if Truthy(s) then s.value else ""
  }

  /** A Lambda invocation. API Gateway hands the request body over as a string in `body`
      (the empty string stands for an absent or empty body); a direct invocation carries the
      fields in the event itself. `parsedBody` is what `JSON.parse(body)` yields: None when the
      text is not JSON or not an object that can be destructured. */
  datatype Event<F> = Event(body: string, parsedBody: Option<F>, fields: F)

  /** `event.body ? JSON.parse(event.body) : event`; None is the exception `JSON.parse` throws. */
  function ReadInput<F>(e: Event<F>): (r: Option<F>)
    ensures e.body == "" ==> r == Some(e.fields)
    ensures e.body != "" ==> r == e.parsedBody
  {
    if e.body != "" then e.parsedBody else Some(e.fields)
  }

  /** What a handler invocation ends with: a returned response, or an exception that escapes
      the handler (the Lambda runtime then reports an invocation error). */
  datatype Response<B> = Response(statusCode: int, body: B) | Uncaught

  /** `m[k]` for a map that may be absent (`obj?.[k]`). */
  function Get<K, V>(m: Option<map<K, V>>, k: K): Option<V> {
    if m.Some? && k in m.value then Some(m.value[k]) else None
  }
}
