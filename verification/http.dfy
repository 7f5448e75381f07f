/**
 * Values shared by the routers and the application: the error objects the
 * handlers build, the replies they send, the cookies they set and the calls
 * of the `next` continuation that Express hands to every middleware.
 */
module Http {

  /** A JavaScript value that may be `undefined` (or `null`). */
  datatype Option<+T> = None | Some(value: T)

  /** The settlement of an awaited call into code outside the model. */
  datatype Result<+T> = Ok(value: T) | Err(error: HttpError)

  /** An `Error` object: its message and its optional `status` property. */
  datatype HttpError = HttpError(message: string, status: Option<int>)

  /** A `res.cookie(name, value, options)` call; times are in milliseconds. */
  datatype SetCookie = SetCookie(name: string, value: string, httpOnly: bool,
                                 maxAge: Option<int>, expires: Option<int>)

  /** A response body: `res.json(value)`, `res.json(null)` or `res.send()` with nothing. */
  datatype Body<+T> = Json(value: T) | JsonNull | NoContent

  /** A response as the handler sends it. */
  datatype Reply<+T> = Reply(status: int, body: Body<T>, cookies: seq<SetCookie>)

  /** What a route handler does with its request. */
  datatype Outcome<+T> =
    | Sent(reply: Reply<T>)                      // the handler answers itself
    | Forwarded(statusSet: int, error: HttpError) // `res.status(n); next(err)`
    | Rejected(error: HttpError)                 // the async handler throws

  /** One call of the continuation: `next()` or `next(err)`. */
  datatype NextCall = NextCall(error: Option<HttpError>)

  /** JavaScript truthiness of a possibly absent string: absent and "" are falsy. */
  predicate Truthy(s: Option<string>) {
    s.Some? && s.value != ""
  }

  /** Property access `obj[key]`, or a lookup by id that finds a document or null. */
  function Lookup<K, V>(m: map<K, V>, key: K): (r: Option<V>)
    ensures r.Some? <==> key in m
    ensures r.Some? ==> r.value == m[key]
  {
    if key in m then Some(m[key]) else None
  }
}
