/** The executor used on Linux, over `AsyncHTTPClient`. The client is the parameter
    `send`. The URL string is not checked here: a malformed one fails inside the client. */
module AsyncHttpClientExecutor {
  import opened Wrappers
  import opened Json
  import opened Endpoint
  import opened LametricError
  import opened HttpExecutor
  import opened ResponseEnvelope

  datatype Executor = Executor(authHeader: string, baseUrlString: string, verbose: bool)

  /** The request for an endpoint: the only way to fail is a body that does not encode.
      Header names are the canonical, lower-case names of the HTTP field types. */
  function RequestFor(ex: Executor, info: EndpointInfo): (r: Result<Request, Failure>)
    ensures r.Ok? <==> EncodedBody(info).Ok?
    ensures r.Err? ==> r == Err(EncodingFailure(EncodedBody(info).error))
    ensures r.Ok? ==>
      r.value.url == UrlString(ex.baseUrlString, info) &&
      r.value.httpMethod == MethodRaw(info.httpMethod) &&
      r.value.headers.Keys == {"content-type", "authorization"} &&
      r.value.headers["content-type"] == CONTENT_TYPE &&
      r.value.headers["authorization"] == BASIC + ex.authHeader &&
      r.value.body == EncodedBody(info).value
  {
    match EncodedBody(info)
    case Err(e) => Err(EncodingFailure(e))
    case Ok(body) =>
      Ok(Request(UrlString(ex.baseUrlString, info), MethodRaw(info.httpMethod),
                 map["content-type" := CONTENT_TYPE, "authorization" := BASIC + ex.authHeader], body))
  }

  /** `makeRequest(for:)`: the URL string is built by appending, the method copied, the
      body encoded, and the headers set from their canonical names. */
  method MakeRequest(ex: Executor, info: EndpointInfo) returns (r: Result<Request, Failure>)
    ensures r == RequestFor(ex, info)
  {
    var urlString := ex.baseUrlString;
    if info.prefix.Some? && info.prefix.value != "" {
      urlString := urlString + (info.prefix.value + "/");
    }
    urlString := urlString + info.path;
    assert urlString == UrlString(ex.baseUrlString, info);
    var httpMethod := MethodRaw(info.httpMethod);
    var body: Option<Json> := None;
    if info.body.Some? {
      var encoded := EncodeBody(info.body.value);
      if encoded.Err? {
        return Err(EncodingFailure(encoded.error));
      }
      body := Some(encoded.value);
    }
    var headers: map<string, string> := map[];
    headers := headers["content-type" := CONTENT_TYPE];
    headers := headers["authorization" := BASIC + ex.authHeader];
    return Ok(Request(urlString, httpMethod, headers, body));
  }

  /** What a reply or an error of the client becomes: a missed deadline is the client's
      `timeout`, any other error is rethrown, and a reply is wrapped in a response whose
      body is decoded at once. */
  function HandleOutcome<T>(outcome: Outcome, decode: Decoder<T>): (r: Result<Response<T>, Failure>)
    ensures r.Ok? <==> outcome.Replied?
    ensures r.Ok? ==> r.value == Init(Some(outcome.data), outcome.status, decode)
    ensures outcome == Failed(DeadlineExceeded) ==> r == Err(ClientError(Timeout))
    ensures outcome.Failed? && outcome.error != DeadlineExceeded ==> r == Err(TransportFailure(outcome.error))
  {
    match outcome
    case Failed(DeadlineExceeded) => Err(ClientError(Timeout))
    case Failed(e) => Err(TransportFailure(e))
    case Replied(data, status, _) => Ok(Init(Some(data), status, decode))
  }

  /** The result of executing a request for an endpoint: the failure to make the request,
      or what the outcome of sending it becomes. */
  function Execution<T>(ex: Executor, info: EndpointInfo, send: Request -> Outcome, decode: Decoder<T>): Result<Response<T>, Failure> {
    match RequestFor(ex, info)
    case Err(e) => Err(e)
    case Ok(request) => HandleOutcome(send(request), decode)
  }

  /** `executeRequest(for:)`: the request is made, or its failure thrown; then it is sent
      and the outcome handled. */
  method ExecuteRequest<T>(ex: Executor, info: EndpointInfo, send: Request -> Outcome, decode: Decoder<T>)
    returns (r: Result<Response<T>, Failure>)
    ensures RequestFor(ex, info).Err? ==> r == Err(RequestFor(ex, info).error)
    ensures RequestFor(ex, info).Ok? ==> r == HandleOutcome(send(RequestFor(ex, info).value), decode)
    ensures r == Execution(ex, info, send, decode)
  {
    var request := MakeRequest(ex, info);
    if request.Err? {
      return Err(request.error);
    }
    var outcome := send(request.value);
    r := HandleOutcome(outcome, decode);
  }
}

/** How the two executors compare. */
module ExecutorAgreement {
  import opened Wrappers
  import opened Endpoint
  import opened LametricError
  import opened HttpExecutor
  import opened ResponseEnvelope
  import UrlSessionExecutor
  import AsyncHttpClientExecutor

  /** With the same key and base, for a URL the session accepts, the two executors send
      the same URL, method and body, and the same headers up to the case of their names. */
  lemma RequestsAgree(auth: string, base: string, verbose: bool, info: EndpointInfo, urlValid: string -> bool)
    requires urlValid(UrlString(base, info))
    ensures var s := UrlSessionExecutor.RequestFor(UrlSessionExecutor.Executor(auth, base, verbose), info, urlValid);
            var a := AsyncHttpClientExecutor.RequestFor(AsyncHttpClientExecutor.Executor(auth, base, verbose), info);
            s.Ok? == a.Ok? && (s.Err? ==> s == a) &&
            (s.Ok? ==>
              s.value.url == a.value.url && s.value.httpMethod == a.value.httpMethod && s.value.body == a.value.body &&
              |s.value.headers| == |a.value.headers| &&
              forall name :: name in s.value.headers ==>
                Lowercased(name) in a.value.headers && a.value.headers[Lowercased(name)] == s.value.headers[name])
  {
    var s := UrlSessionExecutor.RequestFor(UrlSessionExecutor.Executor(auth, base, verbose), info, urlValid);
    var a := AsyncHttpClientExecutor.RequestFor(AsyncHttpClientExecutor.Executor(auth, base, verbose), info);
    if s.Ok? {
      HeadersAgree(s.value.headers, a.value.headers, CONTENT_TYPE, BASIC + auth);
    }
  }

  /** The session's header names, lower-cased, are the client's, with the same values. */
  lemma HeadersAgree(sessionHeaders: map<string, string>, clientHeaders: map<string, string>,
                     contentType: string, authorization: string)
    requires sessionHeaders.Keys == {"Content-Type", "Authorization"}
    requires sessionHeaders["Content-Type"] == contentType && sessionHeaders["Authorization"] == authorization
    requires clientHeaders.Keys == {"content-type", "authorization"}
    requires clientHeaders["content-type"] == contentType && clientHeaders["authorization"] == authorization
    ensures |sessionHeaders| == |clientHeaders|
    ensures forall name :: name in sessionHeaders ==>
      Lowercased(name) in clientHeaders && clientHeaders[Lowercased(name)] == sessionHeaders[name]
  {
    LowercasedNames();
    HeaderCounts(sessionHeaders.Keys, clientHeaders.Keys);
    RenamedHeaders(sessionHeaders, clientHeaders, "Content-Type", "Authorization");
  }

  lemma RenamedHeaders(sessionHeaders: map<string, string>, clientHeaders: map<string, string>, n1: string, n2: string)
    requires sessionHeaders.Keys == {n1, n2}
    requires Lowercased(n1) in clientHeaders && clientHeaders[Lowercased(n1)] == sessionHeaders[n1]
    requires Lowercased(n2) in clientHeaders && clientHeaders[Lowercased(n2)] == sessionHeaders[n2]
    ensures forall name :: name in sessionHeaders ==>
      Lowercased(name) in clientHeaders && clientHeaders[Lowercased(name)] == sessionHeaders[name]
  {
  }

  lemma HeaderCounts(sessionNames: set<string>, clientNames: set<string>)
    requires sessionNames == {"Content-Type", "Authorization"}
    requires clientNames == {"content-type", "authorization"}
    ensures |sessionNames| == |clientNames|
  {
    var ct, au := "Content-Type", "Authorization";
    assert ct[0] == 'C' && au[0] == 'A';
    var lct, lau := "content-type", "authorization";
    assert lct[0] == 'c' && lau[0] == 'a';
  }

  /** A body that does not encode is thrown by both, except that the session reports a
      URL it cannot parse first. */
  lemma EncodingFailuresAgree(auth: string, base: string, verbose: bool, info: EndpointInfo, urlValid: string -> bool)
    requires EncodedBody(info).Err?
    ensures AsyncHttpClientExecutor.RequestFor(AsyncHttpClientExecutor.Executor(auth, base, verbose), info) ==
            Err(EncodingFailure(EncodedBody(info).error))
    ensures UrlSessionExecutor.RequestFor(UrlSessionExecutor.Executor(auth, base, verbose), info, urlValid) ==
            (if urlValid(UrlString(base, info)) then Err(EncodingFailure(EncodedBody(info).error))
             else Err(ClientError(InvalidUrl)))
  {
  }

  /** An HTTP reply becomes the same response on both; and each executor turns its own
      timeout error into the client's `timeout` and passes the other's through. */
  lemma OutcomesAgree<T>(outcome: Outcome, decode: Decoder<T>)
    ensures outcome.Replied? && outcome.isHttp ==>
      UrlSessionExecutor.HandleOutcome(outcome, decode) == AsyncHttpClientExecutor.HandleOutcome(outcome, decode)
    ensures UrlSessionExecutor.HandleOutcome(Failed(TimedOut), decode) == Err(ClientError(Timeout))
    ensures AsyncHttpClientExecutor.HandleOutcome(Failed(DeadlineExceeded), decode) == Err(ClientError(Timeout))
    ensures UrlSessionExecutor.HandleOutcome(Failed(DeadlineExceeded), decode) == Err(TransportFailure(DeadlineExceeded))
    ensures AsyncHttpClientExecutor.HandleOutcome(Failed(TimedOut), decode) == Err(TransportFailure(TimedOut))
  {
  }

  /** End to end: a reply gives a value through `required` exactly when its status is 2xx,
      its body is non-empty and the body decodes to that value. */
  lemma RequiredAfterReply<T>(data: Bytes, status: nat, decode: Decoder<T>, prettyJson: Bytes -> Option<Bytes>, v: T)
    ensures var r := AsyncHttpClientExecutor.HandleOutcome(Replied(data, status, true), decode);
      r.Ok? && (Required(r.value, decode, prettyJson) == Ok(v) <==> 200 <= status < 300 && data != [] && decode(data) == Ok(v))
  {
    RequiredOfFreshResponse(Some(data), status, decode, prettyJson, v);
  }
}
