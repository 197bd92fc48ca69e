/** The executor used where Foundation's `URLSession` is available. `URL(string:)` is the
    parameter `urlValid`, and the session is the parameter `send`. */
module UrlSessionExecutor {
  import opened Wrappers
  import opened Json
  import opened Endpoint
  import opened LametricError
  import opened HttpExecutor
  import opened ResponseEnvelope

  datatype Executor = Executor(authHeader: string, baseUrlString: string, verbose: bool)

  /** The request for an endpoint: the URL is checked first, then the body is encoded. */
  function RequestFor(ex: Executor, info: EndpointInfo, urlValid: string -> bool): (r: Result<Request, Failure>)
    ensures !urlValid(UrlString(ex.baseUrlString, info)) ==> r == Err(ClientError(InvalidUrl))
    ensures urlValid(UrlString(ex.baseUrlString, info)) && EncodedBody(info).Err? ==>
      r == Err(EncodingFailure(EncodedBody(info).error))
    ensures r.Ok? <==> urlValid(UrlString(ex.baseUrlString, info)) && EncodedBody(info).Ok?
    ensures r.Ok? ==>
      r.value.url == UrlString(ex.baseUrlString, info) &&
      r.value.httpMethod == MethodRaw(info.httpMethod) &&
      r.value.headers.Keys == {"Content-Type", "Authorization"} &&
      r.value.headers["Content-Type"] == CONTENT_TYPE &&
      r.value.headers["Authorization"] == BASIC + ex.authHeader &&
      r.value.body == EncodedBody(info).value
  {
    var url := UrlString(ex.baseUrlString, info);
    if !urlValid(url) then Err(ClientError(InvalidUrl))
    else
      match EncodedBody(info)
      case Err(e) => Err(EncodingFailure(e))
      case Ok(body) =>
        MethodRawIsUppercase(info.httpMethod);
        Ok(Request(url, Uppercased(MethodRaw(info.httpMethod)),
                   map["Content-Type" := CONTENT_TYPE, "Authorization" := BASIC + ex.authHeader], body))
  }

  /** `makeRequest(for:)`: the URL string is built by appending, checked, and the request
      filled in field by field. */
  method MakeRequest(ex: Executor, info: EndpointInfo, urlValid: string -> bool) returns (r: Result<Request, Failure>)
    ensures r == RequestFor(ex, info, urlValid)
  {
    var urlString := ex.baseUrlString;
    if info.prefix.Some? && info.prefix.value != "" {
      urlString := urlString + (info.prefix.value + "/");
    }
    urlString := urlString + info.path;
    assert urlString == UrlString(ex.baseUrlString, info);
    if !urlValid(urlString) {
      return Err(ClientError(InvalidUrl));
    }
    var httpMethod := Uppercased(MethodRaw(info.httpMethod));
    var headers: map<string, string> := map[];
    headers := headers["Content-Type" := CONTENT_TYPE];
    headers := headers["Authorization" := BASIC + ex.authHeader];
    var body: Option<Json> := None;
    if info.body.Some? {
      var encoded := EncodeBody(info.body.value);
      if encoded.Err? {
        return Err(EncodingFailure(encoded.error));
      }
      body := Some(encoded.value);
    }
    MethodRawIsUppercase(info.httpMethod);
    return Ok(Request(urlString, httpMethod, headers, body));
  }

  /** What a reply or an error of the session becomes: a timeout is the client's
      `timeout`, a reply that is not HTTP is `invalidResponse`, any other error is
      rethrown, and an HTTP reply is wrapped in a response whose body is decoded at once. */
  function HandleOutcome<T>(outcome: Outcome, decode: Decoder<T>): (r: Result<Response<T>, Failure>)
    ensures r.Ok? <==> outcome.Replied? && outcome.isHttp
    ensures r.Ok? ==> r.value == Init(Some(outcome.data), outcome.status, decode)
    ensures outcome == Failed(TimedOut) ==> r == Err(ClientError(Timeout))
    ensures outcome.Failed? && outcome.error != TimedOut ==> r == Err(TransportFailure(outcome.error))
    ensures outcome.Replied? && !outcome.isHttp ==> r == Err(ClientError(InvalidResponse))
  {
    match outcome
    case Failed(TimedOut) => Err(ClientError(Timeout))
    case Failed(e) => Err(TransportFailure(e))
    case Replied(data, status, isHttp) =>
      if !isHttp then Err(ClientError(InvalidResponse))
      else Ok(InitInt(Some(data), status, decode))
  }

  /** The result of executing a request for an endpoint: the failure to make the request,
      or what the outcome of sending it becomes. */
  function Execution<T>(ex: Executor, info: EndpointInfo, urlValid: string -> bool,
                        send: Request -> Outcome, decode: Decoder<T>): Result<Response<T>, Failure> {
    match RequestFor(ex, info, urlValid)
    case Err(e) => Err(e)
    case Ok(request) => HandleOutcome(send(request), decode)
  }

  /** `executeRequest(for:)`: the request is made, or its failure thrown; then it is sent
      and the outcome handled. */
  method ExecuteRequest<T>(ex: Executor, info: EndpointInfo, urlValid: string -> bool,
                           send: Request -> Outcome, decode: Decoder<T>) returns (r: Result<Response<T>, Failure>)
    ensures RequestFor(ex, info, urlValid).Err? ==> r == Err(RequestFor(ex, info, urlValid).error)
    ensures RequestFor(ex, info, urlValid).Ok? ==>
      r == HandleOutcome(send(RequestFor(ex, info, urlValid).value), decode)
    ensures r == Execution(ex, info, urlValid, send, decode)
  {
    var request := MakeRequest(ex, info, urlValid);
    if request.Err? {
      return Err(request.error);
    }
    var outcome := send(request.value);
    r := HandleOutcome(outcome, decode);
  }
}
