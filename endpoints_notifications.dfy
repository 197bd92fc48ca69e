/** The notification endpoints: send one, read the queue, remove one by its id. */
module NotificationsEndpoint {
  import opened Wrappers
  import opened Endpoint
  import NotificationModel

  datatype Notifications =
    | Send(notification: NotificationModel.Notification)
    | GetQueue
    | Remove(id: string)

  /** The endpoint keeps the default prefix. */
  function Prefix(e: Notifications): Option<string> {
    DEFAULT_PREFIX
  }

  /** Sending and reading the queue share a path; the id of a removal is spliced in as it is. */
  function Path(e: Notifications): string {
    match e
    case Send(_) | GetQueue => "notifications"
    case Remove(id) => "notifications/" + id
  }

  function Method(e: Notifications): HttpMethod {
    match e
    case Send(_) => Post
    case GetQueue => Get
    case Remove(_) => Delete
  }

  function Body(e: Notifications): (b: Option<Endpoint.Body>)
    ensures b.Some? <==> e.Send?
    ensures e.Send? ==> b == Some(NotificationBody(e.notification))
  {
    match e
    case Send(notification) => Some(NotificationBody(notification))
    case GetQueue | Remove(_) => None
  }

  function Info(e: Notifications): (info: EndpointInfo)
    ensures info.prefix == Some("device")
    ensures info.body.Some? <==> info.httpMethod == Post
    ensures BodyOnlyWithPostOrPut(info)
  {
    EndpointInfo(Prefix(e), Path(e), Method(e), Body(e))
  }

  /** What an endpoint addresses, leaving out the notification it carries. */
  function Target(e: Notifications): Notifications {
    if e.Send? then Send(NotificationModel.NotificationWithFrames([])) else e
  }

  /** The method tells the three endpoints apart, and the path the notification removed:
      every id, with or without slashes, has its own path. */
  lemma RouteInjective(e1: Notifications, e2: Notifications)
    requires Path(e1) == Path(e2) && Method(e1) == Method(e2)
    ensures Target(e1) == Target(e2)
  {
    if e1.Remove? && e2.Remove? {
      DropPrefix("notifications/", e1.id, e2.id);
    }
  }
}
