/** `client.apps`: each call executes one app endpoint. */
module ClientApps {
  import opened Wrappers
  import opened Endpoint
  import opened HttpExecutor
  import opened ResponseEnvelope
  import opened LametricClient
  import opened AppsEndpoint
  import AppActionModel

  /** `getAll()` */
  method GetAll<T>(client: Client, net: Network, decode: Decoder<T>) returns (r: Result<Response<T>, Failure>)
    ensures r == Execution(client, Info(Apps.GetAll), net, decode)
  {
    r := Execute(client, Info(Apps.GetAll), net, decode);
  }

  /** `switchToNext()` */
  method SwitchToNext<T>(client: Client, net: Network, decode: Decoder<T>) returns (r: Result<Response<T>, Failure>)
    ensures r == Execution(client, Info(Apps.SwitchToNext), net, decode)
  {
    r := Execute(client, Info(Apps.SwitchToNext), net, decode);
  }

  /** `switchToPrevious()` */
  method SwitchToPrevious<T>(client: Client, net: Network, decode: Decoder<T>) returns (r: Result<Response<T>, Failure>)
    ensures r == Execution(client, Info(Apps.SwitchToPrevious), net, decode)
  {
    r := Execute(client, Info(Apps.SwitchToPrevious), net, decode);
  }

  /** `getApp(package:)` */
  method GetApp<T>(client: Client, net: Network, decode: Decoder<T>, package: string) returns (r: Result<Response<T>, Failure>)
    ensures r == Execution(client, Info(Apps.GetApp(package)), net, decode)
  {
    r := Execute(client, Info(Apps.GetApp(package)), net, decode);
  }

  /** `sendAction(package:widgetId:action:)` */
  method SendAction<T>(client: Client, net: Network, decode: Decoder<T>, package: string, widgetId: string,
                       action: AppActionModel.AppAction) returns (r: Result<Response<T>, Failure>)
    ensures r == Execution(client, Info(Apps.SendAction(package, widgetId, action)), net, decode)
  {
    r := Execute(client, Info(Apps.SendAction(package, widgetId, action)), net, decode);
  }

  /** `activateWidget(package:widgetId:)` */
  method ActivateWidget<T>(client: Client, net: Network, decode: Decoder<T>, package: string, widgetId: string)
    returns (r: Result<Response<T>, Failure>)
    ensures r == Execution(client, Info(Apps.ActivateWidget(package, widgetId)), net, decode)
  {
    r := Execute(client, Info(Apps.ActivateWidget(package, widgetId)), net, decode);
  }

  /** Where the app calls go: under the device prefix, with the method of each. */
  lemma AppsUrls(client: Client, package: string, widgetId: string, action: AppActionModel.AppAction)
    ensures RequestUrl(client, Info(Apps.GetAll)) == client.baseUrlString + "device/apps"
    ensures RequestUrl(client, Info(Apps.SwitchToNext)) == client.baseUrlString + "device/apps/next"
    ensures RequestUrl(client, Info(Apps.GetApp(package))) == client.baseUrlString + "device/apps/" + package
    ensures RequestUrl(client, Info(Apps.SendAction(package, widgetId, action))) ==
            client.baseUrlString + "device/apps/" + package + "/widgets/" + widgetId + "/actions"
    ensures Info(Apps.SendAction(package, widgetId, action)).httpMethod == Post
    ensures Info(Apps.ActivateWidget(package, widgetId)).httpMethod == Put
  {
    var base := client.baseUrlString;
    assert PrefixPart(Some("device")) == "device/";
    assert base + "device/" + ("apps/" + package) == base + "device/apps/" + package;
    assert base + "device/" + ("apps/" + package + "/widgets/" + widgetId + "/actions") ==
           base + "device/apps/" + package + "/widgets/" + widgetId + "/actions";
  }

  /** With slash-free package names and widget ids, the URL and method a call sends
      identify the call, up to the action it carries. */
  lemma RequestIdentifiesCall(client: Client, e1: Apps, e2: Apps)
    requires SlashFree(e1) && SlashFree(e2)
    requires RequestUrl(client, Info(e1)) == RequestUrl(client, Info(e2))
    requires Info(e1).httpMethod == Info(e2).httpMethod
    ensures Target(e1) == Target(e2)
  {
    UrlDeterminesPath(client.baseUrlString, Info(e1), Info(e2));
    RouteInjective(e1, e2);
  }
}

/** `client.notifications`: each call executes one notification endpoint. */
module ClientNotifications {
  import opened Wrappers
  import opened Endpoint
  import opened HttpExecutor
  import opened ResponseEnvelope
  import opened LametricClient
  import opened NotificationsEndpoint
  import NotificationModel

  /** `send(_:)` */
  method Send<T>(client: Client, net: Network, decode: Decoder<T>, notification: NotificationModel.Notification)
    returns (r: Result<Response<T>, Failure>)
    ensures r == Execution(client, Info(Notifications.Send(notification)), net, decode)
  {
    r := Execute(client, Info(Notifications.Send(notification)), net, decode);
  }

  /** `getQueue()` */
  method GetQueue<T>(client: Client, net: Network, decode: Decoder<T>) returns (r: Result<Response<T>, Failure>)
    ensures r == Execution(client, Info(Notifications.GetQueue), net, decode)
  {
    r := Execute(client, Info(Notifications.GetQueue), net, decode);
  }

  /** `remove(id:)` */
  method Remove<T>(client: Client, net: Network, decode: Decoder<T>, id: string) returns (r: Result<Response<T>, Failure>)
    ensures r == Execution(client, Info(Notifications.Remove(id)), net, decode)
  {
    r := Execute(client, Info(Notifications.Remove(id)), net, decode);
  }

  /** Sending posts the notification, encoded, to the queue's URL; removing deletes the
      notification's own URL. A notification always encodes. */
  lemma NotificationsUrls(client: Client, notification: NotificationModel.Notification, id: string)
    ensures RequestUrl(client, Info(Notifications.Send(notification))) == client.baseUrlString + "device/notifications"
    ensures RequestUrl(client, Info(Notifications.GetQueue)) == client.baseUrlString + "device/notifications"
    ensures RequestUrl(client, Info(Notifications.Remove(id))) == client.baseUrlString + "device/notifications/" + id
    ensures EncodedBody(Info(Notifications.Send(notification))) ==
            Ok(Some(NotificationModel.EncodeNotification(notification)))
  {
    var base := client.baseUrlString;
    assert PrefixPart(Some("device")) == "device/";
    assert base + "device/" + ("notifications/" + id) == base + "device/notifications/" + id;
  }

  /** The URL and method of a notification call identify it, up to the notification sent. */
  lemma RequestIdentifiesCall(client: Client, e1: Notifications, e2: Notifications)
    requires RequestUrl(client, Info(e1)) == RequestUrl(client, Info(e2))
    requires Info(e1).httpMethod == Info(e2).httpMethod
    ensures Target(e1) == Target(e2)
  {
    UrlDeterminesPath(client.baseUrlString, Info(e1), Info(e2));
    RouteInjective(e1, e2);
  }
}
