/** What the two HTTP executors share: the URL they build for an endpoint, the request
    they hand to the platform's HTTP stack, what comes back, and how a failure is reported.

    The HTTP stack itself (`URLSession` or `AsyncHTTPClient`) is a parameter of the
    executors: a function from the request to what the network produced. */
module HttpExecutor {
  import opened Wrappers
  import opened Json
  import Utf8
  import opened Endpoint
  import opened LametricError

  /** The prefix and its slash, when the endpoint has a non-empty prefix. */
  function PrefixPart(prefix: Option<string>): string {
    if prefix.Some? && prefix.value != "" then prefix.value + "/" else ""
  }

  /** The URL both executors build: the base, the prefix part, then the path. */
  function UrlString(base: string, info: EndpointInfo): string {
    base + PrefixPart(info.prefix) + info.path
  }

  /** Under one base and one prefix, the URL determines the path and the path the URL. */
  lemma UrlDeterminesPath(base: string, i1: EndpointInfo, i2: EndpointInfo)
    requires i1.prefix == i2.prefix
    ensures UrlString(base, i1) == UrlString(base, i2) <==> i1.path == i2.path
  {
    if UrlString(base, i1) == UrlString(base, i2) {
      DropPrefix(base + PrefixPart(i1.prefix), i1.path, i2.path);
    }
  }

  /** A missing prefix and an empty one give the same URL: nothing is inserted. */
  lemma EmptyPrefixIsNoPrefix(base: string, info: EndpointInfo)
    requires info.prefix == Some("")
    ensures UrlString(base, info) == UrlString(base, info.(prefix := None)) == base + info.path
  {
    assert base + "" == base;
  }

  /** The request as the executors hand it over. The body is the JSON value the shared
      encoder produced; its serialisation to bytes is the encoder's. */
  datatype Request = Request(url: string, httpMethod: string, headers: map<string, string>, body: Option<Json>)

  const CONTENT_TYPE := "application/json"
  const BASIC := "Basic "

  /** The errors the HTTP stacks raise. `TimedOut` is `URLError.timedOut` and
      `DeadlineExceeded` is `HTTPClientError.deadlineExceeded`; the others are kept as
      they come. */
  datatype TransportError = TimedOut | DeadlineExceeded | OtherTransport(description: string)

  /** What the network produced for a request: a reply, with its body and status, or an
      error. `isHttp` says whether the reply is an HTTP response at all. */
  datatype Outcome = Replied(data: Utf8.Bytes, status: nat, isHttp: bool) | Failed(error: TransportError)

  /** What an executor can throw: the client's own errors, errors of the HTTP stack that
      are rethrown unchanged, and encoding errors of the request body. */
  datatype Failure = ClientError(error: Error) | TransportFailure(cause: TransportError) | EncodingFailure(encodeError: EncodeError)

  /** The encoded body of an endpoint, when it has one. */
  function EncodedBody(info: EndpointInfo): (r: Result<Option<Json>, EncodeError>)
    ensures r.Ok? <==> info.body.None? || EncodeBody(info.body.value).Ok?
    ensures r.Ok? ==> (r.value.Some? <==> info.body.Some?)
    ensures r.Ok? && info.body.Some? ==> r.value == Some(EncodeBody(info.body.value).value)
    ensures r.Err? ==> r.error == EncodeBody(info.body.value).error
  {
    if info.body.None? then Ok(None)
    else
      var encoded :- EncodeBody(info.body.value);
      Ok(Some(encoded))
  }

  // ---- ASCII case ----

  /** The upper-case form of an ASCII letter; any other character is unchanged. */
  function UpperChar(c: char): char {
    if 'a' <= c <= 'z' then (c as int - 32) as char else c
  }

  /** The lower-case form of an ASCII letter; any other character is unchanged. */
  function LowerChar(c: char): char {
    if 'A' <= c <= 'Z' then (c as int + 32) as char else c
  }

  /** `uppercased()` on ASCII text: every letter upper-case, the rest unchanged. */
  function Uppercased(s: string): (u: string)
    ensures |u| == |s| && forall k :: 0 <= k < |s| ==> u[k] == UpperChar(s[k])
  {
    if s == [] then [] else [UpperChar(s[0])] + Uppercased(s[1..])
  }

  /** `lowercased()` on ASCII text. */
  function Lowercased(s: string): (l: string)
    ensures |l| == |s| && forall k :: 0 <= k < |s| ==> l[k] == LowerChar(s[k])
  {
    if s == [] then [] else [LowerChar(s[0])] + Lowercased(s[1..])
  }

  /** The header names the session sets, lower-cased, are the canonical names. */
  lemma LowercasedNames()
    ensures Lowercased("Content-Type") == "content-type"
    ensures Lowercased("Authorization") == "authorization"
  {
    LowercasedContentType();
    LowercasedAuthorization();
  }

  lemma LowercasedContentType()
    ensures Lowercased("Content-Type") == "content-type"
  {
    var c := "Content-Type";
    assert c[0] == 'C' && c[1] == 'o' && c[2] == 'n' && c[3] == 't' && c[4] == 'e' && c[5] == 'n';
    assert c[6] == 't' && c[7] == '-' && c[8] == 'T' && c[9] == 'y' && c[10] == 'p' && c[11] == 'e';
    LowercasedIs(c, "content-type");
  }

  lemma LowercasedAuthorization()
    ensures Lowercased("Authorization") == "authorization"
  {
    var a := "Authorization";
    assert a[0] == 'A' && a[1] == 'u' && a[2] == 't' && a[3] == 'h' && a[4] == 'o' && a[5] == 'r' && a[6] == 'i';
    assert a[7] == 'z' && a[8] == 'a' && a[9] == 't' && a[10] == 'i' && a[11] == 'o' && a[12] == 'n';
    LowercasedIs(a, "authorization");
  }

  lemma LowercasedIs(s: string, t: string)
    requires |s| == |t| && forall k :: 0 <= k < |s| ==> LowerChar(s[k]) == t[k]
    ensures Lowercased(s) == t
  {
  }

  /** Text with no lower-case ASCII letter is its own upper-case form. */
  lemma UppercasedIdentity(s: string)
    requires forall k :: 0 <= k < |s| ==> !('a' <= s[k] <= 'z')
    ensures Uppercased(s) == s
  {
  }

  /** Upper-casing the method's name changes nothing: the names are already upper case. */
  lemma MethodRawIsUppercase(m: HttpMethod)
    ensures Uppercased(MethodRaw(m)) == MethodRaw(m)
  {
    UppercasedIdentity(MethodRaw(m));
  }

  /** Distinct methods have distinct names. */
  lemma MethodRawInjective(m1: HttpMethod, m2: HttpMethod)
    ensures MethodRaw(m1) == MethodRaw(m2) ==> m1 == m2
  {
    if MethodRaw(m1) == MethodRaw(m2) {
      assert MethodRaw(m1)[0] == MethodRaw(m2)[0];
      assert |MethodRaw(m1)| == |MethodRaw(m2)|;
    }
  }
}
