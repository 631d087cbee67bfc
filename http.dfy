/**
 * What the three accessor services share: the request headers, the abstract
 * outcome of `fetch` plus `response.json()`, the decoded response envelope, and
 * the errors a call throws.
 */
module Http {
  import opened Wrappers

  /** Request headers, header name to value. */
  type Headers = map<string, string>

  const ContentType := "Content-Type"
  const Authorization := "Authorization"
  const JsonMime := "application/json"

  /** JavaScript truthiness of a stored token: present and not the empty string. */
  predicate Truthy(token: Option<string>) {
    token.Some? && token.value != ""
  }

  /** `{ 'Content-Type': 'application/json' }`: the headers of an anonymous request. */
  function JsonHeaders(): (h: Headers)
    ensures h.Keys == {ContentType} && h[ContentType] == JsonMime
  {
    map[ContentType := JsonMime]
  }

  /**
   * `getAuthHeaders` once the token is known: `Content-Type` always, and
   * `Authorization: Bearer <token>` exactly when the token is truthy.
   */
  function AuthHeaders(token: Option<string>): (h: Headers)
    ensures ContentType in h && h[ContentType] == JsonMime
    ensures Authorization in h <==> Truthy(token)
    ensures Authorization in h ==> h[Authorization] == "Bearer " + token.value
    ensures h.Keys <= {ContentType, Authorization}
    ensures !Truthy(token) ==> h == JsonHeaders()
  {
    if Truthy(token) then JsonHeaders()[Authorization := "Bearer " + token.value]
    else JsonHeaders()
  }

  /** The outcome of `AsyncStorage.getItem('userToken')`: the stored token (or null), or a thrown error. */
  datatype StorageRead = Stored(token: Option<string>) | StorageFailed

  /**
   * `getAuthHeaders` of the destination and rating services: the token store is read
   * without a guard, so a failed read propagates to the caller.
   */
  function ReadAuthHeaders(stored: StorageRead): (r: Result<Headers, Error>)
    ensures stored.StorageFailed? ==> r == Err(Rethrown(StorageUnavailable))
    ensures stored.Stored? ==> r == Ok(AuthHeaders(stored.token))
  {
    match stored
    case StorageFailed => Err(Rethrown(StorageUnavailable))
    case Stored(token) => Ok(AuthHeaders(token))
  }

  datatype Method = Get | Post

  /** The JSON a request carries; only rating submission sends one. */
  datatype Payload = NoPayload | RatingPayload(rating: int, comment: string)

  datatype Request = Request(verb: Method, url: string, headers: Headers, payload: Payload)

  /** The `error` member of a response: a list of messages or a single message. */
  datatype ErrorField = ErrorList(items: seq<string>) | ErrorText(text: string)

  /**
   * The decoded JSON body, with the members the services read; an absent member is `None`.
   * `D` is the type of `data`.
   */
  datatype Envelope<D> = Envelope(
    success: Option<bool>,
    data: Option<D>,
    message: Option<string>,
    error: Option<ErrorField>,
    isSaved: Option<bool>,
    count: Option<int>)

  /**
   * What `fetch` and `response.json()` produce: a transport failure (fetch rejects),
   * or a response with its `ok` flag and its body (`None` when the body is not JSON
   * and `response.json()` rejects).
   */
  datatype Exchange<D> = TransportFailed | Responded(ok: bool, body: Option<Envelope<D>>)

  /** The errors a call can throw without building a message of its own. */
  datatype Cause = StorageUnavailable | TransportFailure | BodyNotJson

  /** A thrown error: one the service builds with `new Error(message)`, or one it re-throws. */
  datatype Error = Thrown(message: string) | Rethrown(cause: Cause)

  /** What one call to a service does: the request it sends, if any, and what it returns or throws. */
  datatype Call<T> = Call(sent: Option<Request>, result: Result<T, Error>)

  /** A response arrived, its `ok` flag is `ok`, and its body parsed as JSON. */
  predicate Answered<D>(x: Exchange<D>, ok: bool) {
    x.Responded? && x.ok == ok && x.body.Some?
  }

  /**
   * The error `fetch` or `response.json()` throws, if one of them does; otherwise
   * the parsed body.
   */
  function Receive<D>(x: Exchange<D>): (r: Result<Envelope<D>, Error>)
    ensures r.Ok? <==> Answered(x, true) || Answered(x, false)
    ensures r.Ok? ==> r.value == x.body.value
    ensures x.TransportFailed? ==> r == Err(Rethrown(TransportFailure))
    ensures x.Responded? && x.body.None? ==> r == Err(Rethrown(BodyNotJson))
  {
    match x
    case TransportFailed => Err(Rethrown(TransportFailure))
    case Responded(_, body) =>
      if body.Some? then Ok(body.value) else Err(Rethrown(BodyNotJson))
  }

  /**
   * `result.success ? failed : 'Network error'`: the message of a non-ok response
   * in the destination and rating services.
   */
  function StatusMessage(success: Option<bool>, failed: string): (m: string)
    ensures success == Some(true) ==> m == failed
    ensures success != Some(true) ==> m == "Network error"
  {
    if success == Some(true) then failed else "Network error"
  }

  /** `message || fallback`: the message, unless it is absent or empty. */
  function MessageOr(message: Option<string>, fallback: string): (m: string)
    ensures Truthy(message) ==> m == message.value
    ensures !Truthy(message) ==> m == fallback
    ensures m == "" ==> fallback == ""
  {
    if Truthy(message) then message.value else fallback
  }
}
