/** The display endpoint: read the display state, or change it. */
module DisplayStateEndpoint {
  import opened Wrappers
  import opened Endpoint
  import DisplayModel

  datatype DisplayState = Get | Put(update: DisplayModel.DisplayStateUpdate)

  /** The endpoint keeps the default prefix. */
  function Prefix(e: DisplayState): Option<string> {
    DEFAULT_PREFIX
  }

  function Path(e: DisplayState): string {
    "display"
  }

  function Method(e: DisplayState): HttpMethod {
    match e
    case Get => HttpMethod.Get
    case Put(_) => HttpMethod.Put
  }

  function Body(e: DisplayState): (b: Option<Endpoint.Body>)
    ensures b.Some? <==> e.Put?
    ensures e.Put? ==> b == Some(DisplayUpdateBody(e.update))
  {
    match e
    case Get => None
    case Put(update) => Some(DisplayUpdateBody(update))
  }

  /** Reading and writing share one path and differ in the method; the update travels as
      the body of the PUT. */
  function Info(e: DisplayState): (info: EndpointInfo)
    ensures info.prefix == Some("device") && info.path == "display"
    ensures info.body.Some? <==> info.httpMethod == HttpMethod.Put
    ensures BodyOnlyWithPostOrPut(info)
  {
    EndpointInfo(Prefix(e), Path(e), Method(e), Body(e))
  }
}

/** The device endpoint: the device's state, at the prefix itself. */
module DeviceEndpoint {
  import opened Wrappers
  import opened Endpoint

  datatype Device = State

  function Info(e: Device): (info: EndpointInfo)
    ensures info.prefix == DEFAULT_PREFIX && info.path == ""
    ensures info.httpMethod == Get && info.body.None?
  {
    match e
    case State => EndpointInfo(Some("device"), "", Get, None)
  }
}

/** The list endpoint: the API's own list of endpoints, at the root, without a prefix. */
module ListEndpoint {
  import opened Wrappers
  import opened Endpoint

  function Info(): (info: EndpointInfo)
    ensures info.prefix.None? && info.path == ""
    ensures info.httpMethod == Get && info.body.None?
  {
    EndpointInfo(None, "", Get, None)
  }
}
