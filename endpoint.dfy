/** What every endpoint of the device's API is: an optional path prefix, a path, an HTTP
    method and an optional JSON body. */
module Endpoint {
  import opened Wrappers
  import opened Json
  import AppActionModel
  import NotificationModel
  import DisplayModel

  /** The HTTP methods the endpoints use. */
  datatype HttpMethod = Get | Post | Put | Delete

  /** The method's name as the HTTP types library spells it. */
  function MethodRaw(m: HttpMethod): string {
    match m
    case Get => "GET"
    case Post => "POST"
    case Put => "PUT"
    case Delete => "DELETE"
  }

  /** The values an endpoint sends as its body. */
  datatype Body =
    | ActionBody(action: AppActionModel.AppAction)
    | NotificationBody(notification: NotificationModel.Notification)
    | DisplayUpdateBody(update: DisplayModel.DisplayStateUpdate)

  /** Encoding a body with the shared JSON encoder. Only an action can fail, when one of
      its parameters holds a value of an unsupported type. */
  function EncodeBody(b: Body): (r: Encoded)
    ensures r.Err? <==> b.ActionBody? && AppActionModel.EncodeAppAction(b.action).Err?
    ensures b.NotificationBody? ==> r == Ok(NotificationModel.EncodeNotification(b.notification))
    ensures b.DisplayUpdateBody? ==> r == Ok(DisplayModel.EncodeDisplayStateUpdate(b.update))
  {
    match b
    case ActionBody(action) => AppActionModel.EncodeAppAction(action)
    case NotificationBody(notification) => Ok(NotificationModel.EncodeNotification(notification))
    case DisplayUpdateBody(update) => Ok(DisplayModel.EncodeDisplayStateUpdate(update))
  }

  /** The four read-only properties of an `Endpoint`. */
  datatype EndpointInfo = EndpointInfo(prefix: Option<string>, path: string, httpMethod: HttpMethod, body: Option<Body>)

  /** The prefix of an endpoint that does not override it. */
  const DEFAULT_PREFIX: Option<string> := Some("device")

  /** An endpoint with a body sends it with a method that carries one. */
  predicate BodyOnlyWithPostOrPut(e: EndpointInfo) {
    e.body.Some? ==> e.httpMethod == Post || e.httpMethod == Put
  }

  // ---- paths ----

  predicate NoSlash(s: string) {
    forall k :: 0 <= k < |s| ==> s[k] != '/'
  }

  /** Two slash-free segments, each followed by a slash, can only line up when the
      segments and the rests are the same. */
  lemma SlashSplit(a: string, b: string, c: string, d: string)
    requires NoSlash(a) && NoSlash(c)
    requires a + "/" + b == c + "/" + d
    ensures a == c && b == d
  {
    var x := a + "/" + b;
    if |a| < |c| {
      SlashAfter(a, b, c, d);
      assert false;
    } else if |c| < |a| {
      SlashAfter(c, d, a, b);
      assert false;
    }
    assert a == x[..|a|] == c;
    assert b == x[|a| + 1..] == d;
  }

  /** The slash after the shorter segment sits inside the longer one. */
  lemma SlashAfter(a: string, b: string, c: string, d: string)
    ensures |a| < |c| ==> (a + "/" + b)[|a|] == '/' && (c + "/" + d)[|a|] == c[|a|]
  {
  }

  /** A common prefix can be taken off both sides. */
  lemma DropPrefix(p: string, s: string, t: string)
    requires p + s == p + t
    ensures s == t
  {
    assert s == (p + s)[|p|..];
    assert t == (p + t)[|p|..];
  }
}
