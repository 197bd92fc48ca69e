/** The client: built from an API key and a connection, it holds the `Authorization`
    credential, the base URL of the device's API, and the executor of its platform. */
module LametricClient {
  import opened Wrappers
  import Utf8
  import Base64
  import opened Decimal
  import opened LametricError
  import opened Endpoint
  import opened HttpExecutor
  import opened ResponseEnvelope
  import UrlSessionExecutor
  import AsyncHttpClientExecutor
  import ListEndpoint

  datatype Scheme = Http | Https

  function SchemeRaw(s: Scheme): string {
    match s
    case Http => "http"
    case Https => "https"
  }

  /** Where the device is reached. */
  datatype Connection = Connection(scheme: Scheme, host: string, port: Option<int>)

  /** `Connection.local(name:port:)`: a device on the local network, over plain HTTP. */
  function Local(name: string, port: int := 8080): (c: Connection)
    ensures c.scheme == Http && c.host == name && c.port == Some(port)
  {
    Connection(Http, name, Some(port))
  }

  /** `Connection.url(scheme:host:port:)`: HTTPS and no explicit port unless given. */
  function Url(host: string, scheme: Scheme := Https, port: Option<int> := None): (c: Connection)
    ensures c.scheme == scheme && c.host == host && c.port == port
  {
    Connection(scheme, host, port)
  }

  /** `portString`: a colon and the port in decimal, or nothing. */
  function PortString(c: Connection): (s: string)
    ensures c.port.None? <==> s == ""
    ensures c.port.Some? ==> s[0] == ':' && ParseInt(s[1..]) == Some(c.port.value)
  {
    match c.port
    case None => ""
    case Some(p) =>
      IntRoundTrip(p);
      assert (":" + IntToString(p))[1..] == IntToString(p);
      ":" + IntToString(p)
  }

  const API_PATH := "/api/v2/"

  /** The base URL every request starts with. */
  function BaseUrlString(c: Connection): string {
    SchemeRaw(c.scheme) + "://" + c.host + PortString(c) + API_PATH
  }

  /** The platforms the executor is chosen for: Linux, or one with Foundation's `URLSession`. */
  datatype Platform = Linux | Darwin

  datatype HttpExecutorChoice =
    | SessionExecutor(session: UrlSessionExecutor.Executor)
    | ClientExecutor(client: AsyncHttpClientExecutor.Executor)

  datatype Client = Client(authHeader: string, verbose: bool, baseUrlString: string, httpExecutor: HttpExecutorChoice)

  /** The credential: `dev:` and the key, UTF-8 encoded, in base 64. */
  function AuthHeader(apiKey: string): string {
    Base64.Encode(Utf8.Encode("dev:" + apiKey))
  }

  /** The credential reads back as `dev:` followed by the key. */
  lemma AuthHeaderRoundTrip(apiKey: string)
    ensures Base64.Decode(AuthHeader(apiKey)).Some?
    ensures Utf8.Decode(Base64.Decode(AuthHeader(apiKey)).value) == Some("dev:" + apiKey)
  {
    Base64.RoundTrip(Utf8.Encode("dev:" + apiKey));
    Utf8.RoundTrip("dev:" + apiKey);
  }

  /** Distinct keys give distinct credentials. */
  lemma AuthHeaderInjective(k1: string, k2: string)
    ensures AuthHeader(k1) == AuthHeader(k2) ==> k1 == k2
  {
    AuthHeaderRoundTrip(k1);
    AuthHeaderRoundTrip(k2);
    if AuthHeader(k1) == AuthHeader(k2) {
      DropPrefix("dev:", k1, k2);
    }
  }

  /** `LametricClient.init(apiKey:connection:verbose:)`. An empty key is refused; otherwise
      the credential and base URL are computed once and handed to the platform's
      executor. */
  function Init(apiKey: string, connection: Connection, verbose: bool, platform: Platform): (r: Result<Client, Error>)
    ensures r.Err? <==> apiKey == ""
    ensures r.Err? ==> r.error == InvalidApiKey
    ensures r.Ok? ==> r.value.authHeader == AuthHeader(apiKey) && r.value.verbose == verbose &&
                      r.value.baseUrlString == BaseUrlString(connection)
    ensures r.Ok? ==> (r.value.httpExecutor.SessionExecutor? <==> platform == Darwin)
    // The executor gets the same credential, base URL and verbosity as the client.
    ensures r.Ok? && platform == Darwin ==>
      r.value.httpExecutor.session == UrlSessionExecutor.Executor(r.value.authHeader, r.value.baseUrlString, verbose)
    ensures r.Ok? && platform == Linux ==>
      r.value.httpExecutor.client == AsyncHttpClientExecutor.Executor(r.value.authHeader, r.value.baseUrlString, verbose)
  {
    if apiKey == "" then Err(InvalidApiKey)
    else
      var authHeader := AuthHeader(apiKey);
      var baseUrlString := BaseUrlString(connection);
      var executor := match platform
        case Linux => ClientExecutor(AsyncHttpClientExecutor.Executor(authHeader, baseUrlString, verbose))
        case Darwin => SessionExecutor(UrlSessionExecutor.Executor(authHeader, baseUrlString, verbose));
      Ok(Client(authHeader, verbose, baseUrlString, executor))
  }

  /** The default local port, in decimal. */
  lemma DefaultPortDigits()
    ensures IntToString(8080) == "8080"
  {
    assert NatToString(8080) == NatToString(808) + ['0'];
    assert NatToString(808) == NatToString(80) + ['8'];
    assert NatToString(80) == NatToString(8) + ['0'];
  }

  /** The base URL of a local device and of a remote host with the defaults. */
  lemma DefaultBaseUrls(name: string, host: string)
    ensures BaseUrlString(Local(name)) == "http://" + name + ":8080" + API_PATH
    ensures BaseUrlString(Url(host)) == "https://" + host + API_PATH
  {
    DefaultPortDigits();
    assert PortString(Local(name)) == ":8080";
    assert PortString(Url(host)) == "";
    assert SchemeRaw(Http) + "://" == "http://";
    assert SchemeRaw(Https) + "://" == "https://";
  }

  /** For one scheme and host, the base URL tells the ports apart. */
  lemma BaseUrlDeterminesPort(c1: Connection, c2: Connection)
    requires c1.scheme == c2.scheme && c1.host == c2.host
    ensures BaseUrlString(c1) == BaseUrlString(c2) ==> c1 == c2
  {
    if BaseUrlString(c1) == BaseUrlString(c2) {
      var head := SchemeRaw(c1.scheme) + "://" + c1.host;
      var p1, p2 := PortString(c1), PortString(c2);
      Cancel(head, p1, p2, API_PATH);
      if c1.port.Some? && c2.port.Some? {
        assert ParseInt(p1[1..]) == Some(c1.port.value) && ParseInt(p2[1..]) == Some(c2.port.value);
      }
    }
  }

  /** A common prefix and suffix can be taken off both sides. */
  lemma Cancel(head: string, s: string, t: string, tail: string)
    requires head + s + tail == head + t + tail
    ensures s == t
  {
    assert head + s + tail == head + (s + tail);
    assert head + t + tail == head + (t + tail);
    DropPrefix(head, s + tail, t + tail);
    DropSuffix(s, t, tail);
  }

  /** A common suffix can be taken off both sides. */
  lemma DropSuffix(s: string, t: string, q: string)
    requires s + q == t + q
    ensures s == t
  {
    assert s == (s + q)[..|s|];
    assert t == (t + q)[..|t|];
  }

  /** What the network does: whether `URL(string:)` accepts a string, and what sending a
      request produces. */
  datatype Network = Network(urlValid: string -> bool, send: Request -> Outcome)

  /** The result of executing a request for an endpoint with the client's executor. */
  function Execution<T>(client: Client, info: EndpointInfo, net: Network, decode: Decoder<T>): Result<Response<T>, Failure> {
    match client.httpExecutor
    case SessionExecutor(ex) => UrlSessionExecutor.Execution(ex, info, net.urlValid, net.send, decode)
    case ClientExecutor(ex) => AsyncHttpClientExecutor.Execution(ex, info, net.send, decode)
  }

  /** `httpExecutor.executeRequest(for:)` */
  method Execute<T>(client: Client, info: EndpointInfo, net: Network, decode: Decoder<T>) returns (r: Result<Response<T>, Failure>)
    ensures r == Execution(client, info, net, decode)
  {
    match client.httpExecutor {
      case SessionExecutor(ex) =>
        r := UrlSessionExecutor.ExecuteRequest(ex, info, net.urlValid, net.send, decode);
      case ClientExecutor(ex) =>
        r := AsyncHttpClientExecutor.ExecuteRequest(ex, info, net.send, decode);
    }
  }

  /** The URL a request for an endpoint goes to, on either platform. */
  function RequestUrl(client: Client, info: EndpointInfo): string {
    UrlString(client.baseUrlString, info)
  }

  /** Whatever the platform, a request that is sent goes to the endpoint's URL with the
      endpoint's method and encoded body, authenticated with the client's credential. */
  lemma SentRequest(apiKey: string, connection: Connection, verbose: bool, platform: Platform,
                    info: EndpointInfo, net: Network)
    requires apiKey != "" && net.urlValid(BaseUrlString(connection) + PrefixPart(info.prefix) + info.path)
    requires EncodedBody(info).Ok?
    ensures var client := Init(apiKey, connection, verbose, platform).value;
      var request := match client.httpExecutor
        case SessionExecutor(ex) => UrlSessionExecutor.RequestFor(ex, info, net.urlValid)
        case ClientExecutor(ex) => AsyncHttpClientExecutor.RequestFor(ex, info);
      request.Ok? &&
      request.value.url == BaseUrlString(connection) + PrefixPart(info.prefix) + info.path &&
      request.value.httpMethod == MethodRaw(info.httpMethod) &&
      request.value.body == EncodedBody(info).value &&
      BASIC + AuthHeader(apiKey) in request.value.headers.Values
  {
    var client := Init(apiKey, connection, verbose, platform).value;
    match client.httpExecutor {
      case SessionExecutor(ex) =>
        var request := UrlSessionExecutor.RequestFor(ex, info, net.urlValid);
        assert request.value.headers["Authorization"] == BASIC + AuthHeader(apiKey);
      case ClientExecutor(ex) =>
        var request := AsyncHttpClientExecutor.RequestFor(ex, info);
        assert request.value.headers["authorization"] == BASIC + AuthHeader(apiKey);
    }
  }

  /** `listEndpoints()` */
  method ListEndpoints<T>(client: Client, net: Network, decode: Decoder<T>) returns (r: Result<Response<T>, Failure>)
    ensures r == Execution(client, ListEndpoint.Info(), net, decode)
  {
    r := Execute(client, ListEndpoint.Info(), net, decode);
  }

  /** The list of endpoints is read from the base URL itself, with GET. */
  lemma ListEndpointsUrl(client: Client)
    ensures RequestUrl(client, ListEndpoint.Info()) == client.baseUrlString
    ensures ListEndpoint.Info().httpMethod == Get
  {
    assert client.baseUrlString + "" + "" == client.baseUrlString;
  }
}
