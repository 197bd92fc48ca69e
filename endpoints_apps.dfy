/** The app endpoints: list the apps, switch between them, read one app, and send an
    action to or activate one of its widgets. */
module AppsEndpoint {
  import opened Wrappers
  import opened Endpoint
  import AppActionModel

  datatype Apps =
    | GetAll
    | SwitchToNext
    | SwitchToPrevious
    | GetApp(package: string)
    | SendAction(package: string, widgetId: string, action: AppActionModel.AppAction)
    | ActivateWidget(package: string, widgetId: string)

  function Prefix(e: Apps): (p: Option<string>)
    ensures p == DEFAULT_PREFIX
  {
    Some("device")
  }

  /** The package and widget id are spliced into the path as they are, without escaping. */
  function Path(e: Apps): string {
    match e
    case GetAll => "apps"
    case SwitchToNext => "apps/next"
    case SwitchToPrevious => "apps/prev"
    case GetApp(package) => "apps/" + package
    case SendAction(package, widgetId, _) => "apps/" + package + "/widgets/" + widgetId + "/actions"
    case ActivateWidget(package, widgetId) => "apps/" + package + "/widgets/" + widgetId + "/activate"
  }

  function Method(e: Apps): HttpMethod {
    match e
    case GetAll | GetApp(_) => Get
    case SwitchToNext | SwitchToPrevious | ActivateWidget(_, _) => Put
    case SendAction(_, _, _) => Post
  }

  function Body(e: Apps): (b: Option<Endpoint.Body>)
    ensures b.Some? <==> e.SendAction?
    ensures e.SendAction? ==> b == Some(ActionBody(e.action))
  {
    if e.SendAction? then Some(ActionBody(e.action)) else None
  }

  /** The endpoint as the executors see it. Only sending an action has a body, and it
      goes with POST. */
  function Info(e: Apps): (info: EndpointInfo)
    ensures info.prefix == DEFAULT_PREFIX
    ensures info.body.Some? ==> info.httpMethod == Post
    ensures BodyOnlyWithPostOrPut(info)
  {
    EndpointInfo(Prefix(e), Path(e), Method(e), Body(e))
  }

  /** The identifiers in the endpoint contain no slash. */
  predicate SlashFree(e: Apps) {
    (e.GetApp? || e.SendAction? || e.ActivateWidget? ==> NoSlash(e.package)) &&
    (e.SendAction? || e.ActivateWidget? ==> NoSlash(e.widgetId))
  }

  /** What an endpoint addresses, leaving out the action it carries. */
  function Target(e: Apps): Apps {
    if e.SendAction? then SendAction(e.package, e.widgetId, AppActionModel.AppAction("")) else e
  }

  /** The path of a widget route after "apps/". */
  function WidgetRoute(package: string, widgetId: string, verb: string): string {
    package + "/" + ("widgets/" + (widgetId + "/" + verb))
  }

  /** The path after "apps/" when there is one. */
  function Rest(e: Apps): string
    requires !e.GetAll?
  {
    match e
    case SwitchToNext => "next"
    case SwitchToPrevious => "prev"
    case GetApp(package) => package
    case SendAction(package, widgetId, _) => WidgetRoute(package, widgetId, "actions")
    case ActivateWidget(package, widgetId) => WidgetRoute(package, widgetId, "activate")
  }

  lemma WidgetPathShape(package: string, widgetId: string, verb: string)
    ensures "apps/" + package + "/widgets/" + widgetId + ("/" + verb) == "apps/" + WidgetRoute(package, widgetId, verb)
  {
    assert "/widgets/" == "/" + "widgets/";
  }

  lemma PathShape(e: Apps)
    ensures e.GetAll? ==> Path(e) == "apps"
    ensures !e.GetAll? ==> Path(e) == "apps/" + Rest(e)
  {
    match e
    case GetAll =>
    case SwitchToNext =>
    case SwitchToPrevious =>
    case GetApp(_) =>
    case SendAction(package, widgetId, _) =>
      assert "/actions" == "/" + "actions";
      WidgetPathShape(package, widgetId, "actions");
    case ActivateWidget(package, widgetId) =>
      assert "/activate" == "/" + "activate";
      WidgetPathShape(package, widgetId, "activate");
  }

  /** As long as package names and widget ids contain no slash, the path and method of a
      request identify the endpoint; only the action carried is not part of the route. */
  lemma RouteInjective(e1: Apps, e2: Apps)
    requires SlashFree(e1) && SlashFree(e2)
    requires Path(e1) == Path(e2) && Method(e1) == Method(e2)
    ensures Target(e1) == Target(e2)
  {
    PathShape(e1);
    PathShape(e2);
    if e1.GetAll? || e2.GetAll? {
      assert |Path(e1)| == 4 <==> e1.GetAll?;
      assert |Path(e2)| == 4 <==> e2.GetAll?;
    } else {
      DropPrefix("apps/", Rest(e1), Rest(e2));
      RestInjective(e1, e2);
    }
  }

  lemma RestInjective(e1: Apps, e2: Apps)
    requires !e1.GetAll? && !e2.GetAll? && SlashFree(e1) && SlashFree(e2)
    requires Rest(e1) == Rest(e2) && Method(e1) == Method(e2)
    ensures Target(e1) == Target(e2)
  {
    if e1.SendAction? || e1.ActivateWidget? {
      WidgetRouteShape(e1, e2);
    } else if e2.SendAction? || e2.ActivateWidget? {
      WidgetRouteShape(e2, e1);
    }
  }

  /** A widget route holds a slash after the package, which no other route does. */
  lemma WidgetRouteShape(e1: Apps, e2: Apps)
    requires e1.SendAction? || e1.ActivateWidget?
    requires !e2.GetAll? && SlashFree(e1) && SlashFree(e2)
    requires Rest(e1) == Rest(e2) && Method(e1) == Method(e2)
    ensures Target(e1) == Target(e2)
  {
    var verb1 := if e1.SendAction? then "actions" else "activate";
    var tail1 := "widgets/" + (e1.widgetId + "/" + verb1);
    assert Rest(e1) == e1.package + "/" + tail1;
    if e2.SendAction? || e2.ActivateWidget? {
      var verb2 := if e2.SendAction? then "actions" else "activate";
      var tail2 := "widgets/" + (e2.widgetId + "/" + verb2);
      assert Rest(e2) == e2.package + "/" + tail2;
      SlashSplit(e1.package, tail1, e2.package, tail2);
      DropPrefix("widgets/", e1.widgetId + "/" + verb1, e2.widgetId + "/" + verb2);
      SlashSplit(e1.widgetId, verb1, e2.widgetId, verb2);
    } else {
      assert false;
    }
  }

  /** Without that condition two different widgets can share a route: ids are not escaped. */
  lemma UnescapedIdsCollide()
    ensures Path(ActivateWidget("a/widgets/b", "c")) == Path(ActivateWidget("a", "b/widgets/c"))
    ensures ActivateWidget("a/widgets/b", "c") != ActivateWidget("a", "b/widgets/c")
    // A package named "next" reads the same path that switching to the next app writes.
    ensures Path(GetApp("next")) == Path(SwitchToNext) && Method(GetApp("next")) != Method(SwitchToNext)
  {
  }
}
