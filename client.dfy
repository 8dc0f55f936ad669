/**
 The shared request/response primitives of the Up API client (up/client.go):
 the client's configuration, request construction with its fixed headers,
 the classification of a completed exchange into a result or an error, the
 text of the API's error value, and the nil short-circuit of query options.

 What the Go code hands to libraries is a parameter here:
 - `Client.resolve` stands for `url.Parse` of a relative path, its resolution
   against the base URL and `http.NewRequest`, failing with the library's message;
 - an `encode` function stands for `json.Encoder.Encode` of a request body;
 - an `Outcome` stands for what `http.Client.Do` and `json.Decoder.Decode`
   produced for one request;
 - an `encodeQuery` function stands for `url.Parse`, `query.Values` and
   `url.Values.Encode` inside addOptions, failing with the library's message.
 */
module UpClient {
  import opened Wrappers
  import Text

  const DefaultBaseURL: string := "https://api.up.com.au/api/v1/"
  const UserAgent: string := "up-go-client/1.0"
  const JsonMediaType: string := "application/json"

  type Bytes = seq<bv8>

  /** Configuration fixed when the client is built: base URL, bearer token and URL resolution. */
  datatype Client = Client(baseURL: string, token: string, resolve: string -> Result<string, string>)

  /** An HTTP request as newRequest leaves it: method, absolute URL, header map, encoded body. */
  datatype Request = Request(httpMethod: string, url: string, header: map<string, string>, body: Option<Bytes>)

  /** Pagination links of a list response; an empty string is an absent link. */
  datatype Links = Links(prev: string, next: string)

  datatype ErrorSource = ErrorSource(parameter: string, pointer: string)
  datatype ErrorObject = ErrorObject(status: string, title: string, detail: string, source: Option<ErrorSource>)

  /** The body the API sends with a failure status. */
  datatype ErrorResponse = ErrorResponse(errors: seq<ErrorObject>)

  /** What `ctx.Err()` can report. */
  datatype ContextErr = Canceled | DeadlineExceeded

  /** Every error value a call of the core can return. */
  datatype Error =
    | UrlError(message: string)          // the path did not parse or resolve into a request
    | EncodeError(message: string)       // the request body did not encode as JSON
    | QueryError(message: string)        // the query options did not encode
    | ContextError(cause: ContextErr)    // the transport failed and the context had an error
    | TransportError(message: string)    // the transport failed on its own
    | ApiError(response: ErrorResponse)  // status >= 400 with a decodable error body
    | StatusDecodeError(status: int)     // status >= 400 whose body is not an ErrorResponse
    | DecodeError(message: string)       // a success body that did not decode into the target

  /** The `*http.Response` handed back to callers; only its status matters to the core. */
  datatype Response = Response(status: int)

  /**
   What one request produced at the transport: either the transport failed (and
   the context may have an error by then), or a response arrived, together with
   what decoding its body would give as an ErrorResponse and as the target shape.
   */
  datatype Outcome<T> =
    | TransportFailed(message: string, contextErr: Option<ContextErr>)
    | Responded(status: int, errorBody: Option<ErrorResponse>, targetBody: Result<T, string>)

  /** The pair `do` returns: the response (nil when none arrived) and the decoded target or the error. */
  datatype Reply<T> = Reply(resp: Option<Response>, result: Result<Option<T>, Error>)

  /** The header map newRequest builds for a request with or without a body. */
  function Headers(token: string, hasBody: bool): (h: map<string, string>)
    ensures h.Keys == {"Accept", "User-Agent", "Authorization"} + (if hasBody then {"Content-Type"} else {})
    ensures h["Accept"] == JsonMediaType && h["User-Agent"] == UserAgent
    ensures h["Authorization"] == "Bearer " + token
    ensures hasBody ==> h["Content-Type"] == JsonMediaType
  {
    var h0: map<string, string> := if hasBody then map["Content-Type" := JsonMediaType] else map[];
    h0["Accept" := JsonMediaType]["User-Agent" := UserAgent]["Authorization" := "Bearer " + token]
  }

  /** A body changes the headers only by adding the JSON content type. */
  lemma BodyAddsOnlyContentType(token: string)
    ensures "Content-Type" !in Headers(token, false)
    ensures Headers(token, true) == Headers(token, false)["Content-Type" := JsonMediaType]
  {
  }

  /**
   newRequest: resolve the path, encode the body when there is one, and set the
   headers. A path that does not resolve fails before the body is looked at.
   */
  function NewRequest<B>(c: Client, httpMethod: string, path: string, body: Option<B>,
                         encode: B -> Result<Bytes, string>): (r: Result<Request, Error>)
    ensures c.resolve(path).Failure? ==> r == Failure(UrlError(c.resolve(path).error))
    ensures c.resolve(path).Success? && body.Some? && encode(body.value).Failure? ==>
              r == Failure(EncodeError(encode(body.value).error))
    ensures r.Success? <==> c.resolve(path).Success? && (body.Some? ==> encode(body.value).Success?)
    ensures r.Success? ==> r.value.httpMethod == httpMethod && r.value.url == c.resolve(path).value
    ensures r.Success? ==> r.value.header == Headers(c.token, body.Some?)
    ensures r.Success? ==> r.value.body == if body.Some? then Some(encode(body.value).value) else None
  {
    match c.resolve(path)
    case Failure(msg) => Failure(UrlError(msg))
    case Success(uri) =>
      if body.None? then Success(Request(httpMethod, uri, Headers(c.token, false), None))
      else match encode(body.value)
        case Failure(msg) => Failure(EncodeError(msg))
        case Success(bytes) => Success(Request(httpMethod, uri, Headers(c.token, true), Some(bytes)))
  }

  /** newRequest with a nil body. */
  function NewRequestWithoutBody(c: Client, httpMethod: string, path: string): Result<Request, Error> {
    NewRequest<()>(c, httpMethod, path, None, (u: ()) => Success([]))
  }

  /**
   do: classify one exchange. `target` says whether the caller passed a value to
   decode into (a non-nil `v`).
   */
  function Do<T>(o: Outcome<T>, target: bool): (x: Reply<T>)
    ensures x.resp.None? <==> o.TransportFailed?
    ensures o.Responded? ==> x.resp == Some(Response(o.status))
    ensures o.TransportFailed? ==>
              x.result == Failure(if o.contextErr.Some? then ContextError(o.contextErr.value) else TransportError(o.message))
    ensures o.Responded? && o.status >= 400 ==>
              x.result == Failure(if o.errorBody.Some? then ApiError(o.errorBody.value) else StatusDecodeError(o.status))
    ensures x.result.Success? <==> o.Responded? && o.status < 400 && (target ==> o.targetBody.Success?)
    ensures x.result.Success? ==> x.result.value == if target then Some(o.targetBody.value) else None
    ensures o.Responded? && o.status < 400 && target && o.targetBody.Failure? ==>
              x.result == Failure(DecodeError(o.targetBody.error))
  {
    match o
    case TransportFailed(msg, ctxErr) =>
      Reply(None, Failure(if ctxErr.Some? then ContextError(ctxErr.value) else TransportError(msg)))
    case Responded(status, errorBody, targetBody) =>
      var resp := Some(Response(status));
      if status >= 400 then
        match errorBody
        case None => Reply(resp, Failure(StatusDecodeError(status)))
        case Some(e) => Reply(resp, Failure(ApiError(e)))
      else if !target then Reply(resp, Success(None))
      else match targetBody
        case Failure(msg) => Reply(resp, Failure(DecodeError(msg)))
        case Success(v) => Reply(resp, Success(Some(v)))
  }

  /**
   A failure status decides the reply on its own: neither the success target
   nor whether there is one makes any difference.
   */
  lemma StatusPriority<T>(status: int, errorBody: Option<ErrorResponse>, a: Result<T, string>, b: Result<T, string>,
                          targetA: bool, targetB: bool)
    requires status >= 400
    ensures Do(Responded(status, errorBody, a), targetA) == Do(Responded(status, errorBody, b), targetB)
    ensures Do(Responded(status, errorBody, a), targetA).result.Failure?
  {
  }

  /** Without a target the body is never decoded: an arriving response succeeds exactly below status 400. */
  lemma NoTargetIgnoresBody<T>(o: Outcome<T>, other: Result<T, string>)
    requires o.Responded?
    ensures Do(o, false).result.Success? <==> o.status < 400
    ensures Do(o, false) == Do(o.(targetBody := other), false)
  {
  }

  /** `ErrorResponse.Error`: the first entry's title and detail, or a fixed text when there is none. */
  function ErrorMessage(e: ErrorResponse): (msg: string)
    ensures |e.errors| == 0 ==> msg == "unknown error"
    ensures |e.errors| > 0 ==> var first := e.errors[0];
              |msg| == |first.title| + 2 + |first.detail| &&
              msg[..|first.title|] == first.title &&
              msg[|first.title|..|first.title| + 2] == ": " &&
              msg[|first.title| + 2..] == first.detail
  {
    if |e.errors| > 0 then e.errors[0].title + ": " + e.errors[0].detail else "unknown error"
  }

  /** The fixed text is nobody's title and detail: it appears exactly when the response has no entries. */
  lemma UnknownErrorIffNoEntries(e: ErrorResponse)
    ensures ErrorMessage(e) == "unknown error" <==> |e.errors| == 0
  {
    if |e.errors| > 0 {
      var t := e.errors[0].title;
      var msg := ErrorMessage(e);
      assert msg[|t|] == ':';
      assert ':' !in "unknown error";
    }
  }

  const StatusPrefix: string := "http status "
  const StatusSuffix: string := ": failed to decode error response"

  /** The message of a status whose error body did not decode: the code between a fixed prefix and suffix. */
  function StatusDecodeMessage(status: int): (msg: string)
    ensures |msg| == |StatusPrefix| + |Text.IntText(status)| + |StatusSuffix|
    ensures msg[..|StatusPrefix|] == StatusPrefix
    ensures msg[|StatusPrefix|..|msg| - |StatusSuffix|] == Text.IntText(status)
    ensures msg[|msg| - |StatusSuffix|..] == StatusSuffix
  {
    StatusPrefix + Text.IntText(status) + StatusSuffix
  }

  /** The message keeps the status code: two different codes never give the same text. */
  lemma StatusDecodeMessageInjective(a: int, b: int)
    ensures StatusDecodeMessage(a) == StatusDecodeMessage(b) ==> a == b
  {
    if StatusDecodeMessage(a) == StatusDecodeMessage(b) {
      Text.IntTextInjective(a, b);
    }
  }

  /** `Error()` of the two error values the core itself creates. */
  function ErrorText(e: Error): (msg: string)
    ensures e.ApiError? ==> msg == ErrorMessage(e.response)
    ensures e.StatusDecodeError? ==> msg == StatusDecodeMessage(e.status)
  {
    match e
    case ApiError(r) => ErrorMessage(r)
    case StatusDecodeError(status) => StatusDecodeMessage(status)
    case UrlError(msg) => msg
    case EncodeError(msg) => msg
    case QueryError(msg) => msg
    case ContextError(Canceled) => "context canceled"
    case ContextError(DeadlineExceeded) => "context deadline exceeded"
    case TransportError(msg) => msg
    case DecodeError(msg) => msg
  }

  /**
   addOptions: nil options leave the path as it is; otherwise the query
   library's result (the path with its query, or its error) is returned.
   */
  function AddOptions<O>(s: string, opts: Option<O>, encodeQuery: (string, O) -> Result<string, string>): (r: Result<string, Error>)
    ensures opts.None? ==> r == Success(s)
    ensures opts.Some? && encodeQuery(s, opts.value).Success? ==> r == Success(encodeQuery(s, opts.value).value)
    ensures opts.Some? && encodeQuery(s, opts.value).Failure? ==> r == Failure(QueryError(encodeQuery(s, opts.value).error))
    ensures r.Failure? ==> r.error.QueryError?
  {
    match opts
    case None => Success(s)
    case Some(o) =>
      match encodeQuery(s, o)
      case Success(u) => Success(u)
      case Failure(msg) => Failure(QueryError(msg))
  }

  /** The (value, *http.Response, error) triple a service call returns; nil is None. */
  datatype Answer<X> = Answer(value: Option<X>, resp: Option<Response>, err: Option<Error>)

  /** ListOptions: the page size and cursors every paginated endpoint accepts. */
  datatype ListOptions = ListOptions(pageSize: int, after: string, before: string)
}
