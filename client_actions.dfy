/** The built-in apps' actions: each builds an action for a fixed package and sends it to
    the given widget, asking the device to bring the widget forward (`activate`). */
module ClientActions {
  import opened Wrappers
  import opened Json
  import opened Endpoint
  import opened HttpExecutor
  import opened ResponseEnvelope
  import opened LametricClient
  import AppsEndpoint
  import ClientApps
  import opened AppActionModel

  const CLOCK_PACKAGE := "com.lametric.clock"
  const RADIO_PACKAGE := "com.lametric.radio"
  const COUNTDOWN_PACKAGE := "com.lametric.countdown"
  const STOPWATCH_PACKAGE := "com.lametric.stopwatch"
  const WEATHER_PACKAGE := "com.lametric.weather"

  datatype RadioAction = Play | Stop | Next | Previous
  datatype CountdownAction = CountdownStart | CountdownPause | CountdownReset
  datatype StopwatchAction = StopwatchStart | StopwatchPause | StopwatchReset

  /** An action for `package` with only an id, activating the widget. */
  function Activating(id: string): (a: AppAction)
    ensures a.id == id && a.params.None? && a.activate == Some(true)
    ensures EncodeAppAction(a) == Ok(JObj(map["id" := JStr(id), "activate" := JBool(true)]))
  {
    AppAction(id, None, Some(true))
  }

  // ---- parameters ----

  /** A parameter map whose values are the present optional values. */
  function PutIfSome(params: map<string, AnyCodable>, key: string, v: Option<AnyValue>): (r: map<string, AnyCodable>)
    ensures v.None? ==> r == params
    ensures v.Some? ==> r == params[key := AnyCodable(v.value)]
  {
    if v.Some? then params[key := AnyCodable(v.value)] else params
  }

  /** `params.isEmpty ? nil : params` */
  function NilIfEmpty(params: map<string, AnyCodable>): (r: Option<map<string, AnyCodable>>)
    ensures r.None? <==> params == map[]
    ensures r.Some? ==> r.value == params
  {
    if |params| == 0 then None else Some(params)
  }

  function BoolOf(b: Option<bool>): Option<AnyValue> {
    if b.Some? then Some(BoolValue(b.value)) else None
  }

  function StringOf(s: Option<string>): Option<AnyValue> {
    if s.Some? then Some(StringValue(s.value)) else None
  }

  function IntOf(i: Option<Int64>): Option<AnyValue> {
    if i.Some? then Some(IntValue(i.value)) else None
  }

  /** The alarm parameters: each option that is given, under its key. */
  function AlarmParams(enabled: Option<bool>, time: Option<string>, wakeWithRadio: Option<bool>): map<string, AnyCodable> {
    PutIfSome(PutIfSome(PutIfSome(map[], "enabled", BoolOf(enabled)), "time", StringOf(time)),
              "wake_with_radio", BoolOf(wakeWithRadio))
  }

  /** The action `configureAlarm` sends. */
  function AlarmAction(enabled: Option<bool>, time: Option<string>, wakeWithRadio: Option<bool>): AppAction {
    AppAction("clock.alarm", NilIfEmpty(AlarmParams(enabled, time, wakeWithRadio)), Some(true))
  }

  /** The alarm action carries exactly the options given, each under its own key, and no
      parameters at all when none is given; it always encodes. */
  lemma AlarmActionContents(enabled: Option<bool>, time: Option<string>, wakeWithRadio: Option<bool>)
    ensures var a := AlarmAction(enabled, time, wakeWithRadio);
      a.id == "clock.alarm" && a.activate == Some(true) &&
      (a.params.None? <==> enabled.None? && time.None? && wakeWithRadio.None?) &&
      (a.params.Some? ==>
        ("enabled" in a.params.value <==> enabled.Some?) &&
        ("time" in a.params.value <==> time.Some?) &&
        ("wake_with_radio" in a.params.value <==> wakeWithRadio.Some?) &&
        a.params.value.Keys <= {"enabled", "time", "wake_with_radio"} &&
        (enabled.Some? ==> a.params.value["enabled"] == AnyCodable(BoolValue(enabled.value))) &&
        (time.Some? ==> a.params.value["time"] == AnyCodable(StringValue(time.value))) &&
        (wakeWithRadio.Some? ==> a.params.value["wake_with_radio"] == AnyCodable(BoolValue(wakeWithRadio.value))))
    ensures EncodeAppAction(AlarmAction(enabled, time, wakeWithRadio)).Ok?
  {
    var p := AlarmParams(enabled, time, wakeWithRadio);
    assert "enabled" != "time" && "enabled" != "wake_with_radio" && "time" != "wake_with_radio" by {
      assert "enabled"[0] == 'e' && "time"[0] == 't' && "wake_with_radio"[0] == 'w';
    }
    if enabled.Some? || time.Some? || wakeWithRadio.Some? {
      assert p != map[] by {
        if enabled.Some? { assert "enabled" in p; }
        else if time.Some? { assert "time" in p; }
        else { assert "wake_with_radio" in p; }
      }
    }
  }

  /** `configureAlarm(enabled:time:wakeWithRadio:widgetId:)`: the parameters are collected
      one by one, then sent to the clock. */
  method ConfigureAlarm<T>(client: Client, net: Network, decode: Decoder<T>,
                           enabled: Option<bool>, time: Option<string>, wakeWithRadio: Option<bool>, widgetId: string)
    returns (r: Result<Response<T>, Failure>)
    ensures r == Execution(client,
                           AppsEndpoint.Info(AppsEndpoint.SendAction(CLOCK_PACKAGE, widgetId, AlarmAction(enabled, time, wakeWithRadio))),
                           net, decode)
  {
    var params: map<string, AnyCodable> := map[];
    if enabled.Some? {
      params := params["enabled" := AnyCodable(BoolValue(enabled.value))];
    }
    if time.Some? {
      params := params["time" := AnyCodable(StringValue(time.value))];
    }
    if wakeWithRadio.Some? {
      params := params["wake_with_radio" := AnyCodable(BoolValue(wakeWithRadio.value))];
    }
    assert params == AlarmParams(enabled, time, wakeWithRadio);
    var action := AppAction("clock.alarm", if |params| == 0 then None else Some(params), Some(true));
    r := ClientApps.SendAction(client, net, decode, CLOCK_PACKAGE, widgetId, action);
  }

  /** The countdown parameters: each option that is given, under its key. */
  function CountdownParams(duration: Option<Int64>, startNow: Option<bool>): map<string, AnyCodable> {
    PutIfSome(PutIfSome(map[], "duration", IntOf(duration)), "start_now", BoolOf(startNow))
  }

  /** The action `configureCountdown` sends. */
  function CountdownConfiguration(duration: Option<Int64>, startNow: Option<bool>): AppAction {
    AppAction("countdown.configure", NilIfEmpty(CountdownParams(duration, startNow)), Some(true))
  }

  /** The countdown configuration carries exactly the options given, and no parameters
      when none is given; it always encodes. */
  lemma CountdownConfigurationContents(duration: Option<Int64>, startNow: Option<bool>)
    ensures var a := CountdownConfiguration(duration, startNow);
      a.id == "countdown.configure" && a.activate == Some(true) &&
      (a.params.None? <==> duration.None? && startNow.None?) &&
      (a.params.Some? ==>
        a.params.value.Keys <= {"duration", "start_now"} &&
        ("duration" in a.params.value <==> duration.Some?) &&
        ("start_now" in a.params.value <==> startNow.Some?) &&
        (duration.Some? ==> a.params.value["duration"] == AnyCodable(IntValue(duration.value))) &&
        (startNow.Some? ==> a.params.value["start_now"] == AnyCodable(BoolValue(startNow.value))))
    ensures EncodeAppAction(CountdownConfiguration(duration, startNow)).Ok?
  {
    var p := CountdownParams(duration, startNow);
    assert "duration" != "start_now" by {
      assert "duration"[0] == 'd' && "start_now"[0] == 's';
    }
    if duration.Some? {
      assert "duration" in p;
    } else if startNow.Some? {
      assert "start_now" in p;
    }
  }

  /** `configureCountdown(duration:startNow:widgetId:)` */
  method ConfigureCountdown<T>(client: Client, net: Network, decode: Decoder<T>,
                               duration: Option<Int64>, startNow: Option<bool>, widgetId: string)
    returns (r: Result<Response<T>, Failure>)
    ensures r == Execution(client,
                           AppsEndpoint.Info(AppsEndpoint.SendAction(COUNTDOWN_PACKAGE, widgetId, CountdownConfiguration(duration, startNow))),
                           net, decode)
  {
    var params: map<string, AnyCodable> := map[];
    if duration.Some? {
      params := params["duration" := AnyCodable(IntValue(duration.value))];
    }
    if startNow.Some? {
      params := params["start_now" := AnyCodable(BoolValue(startNow.value))];
    }
    assert params == CountdownParams(duration, startNow);
    var action := AppAction("countdown.configure", if |params| == 0 then None else Some(params), Some(true));
    r := ClientApps.SendAction(client, net, decode, COUNTDOWN_PACKAGE, widgetId, action);
  }

  // ---- controls ----

  function RadioActionId(action: RadioAction): string {
    match action
    case Play => "radio.play"
    case Stop => "radio.stop"
    case Next => "radio.next"
    case Previous => "radio.prev"
  }

  function CountdownActionId(action: CountdownAction): string {
    match action
    case CountdownStart => "countdown.start"
    case CountdownPause => "countdown.pause"
    case CountdownReset => "countdown.reset"
  }

  function StopwatchActionId(action: StopwatchAction): string {
    match action
    case StopwatchStart => "stopwatch.start"
    case StopwatchPause => "stopwatch.pause"
    case StopwatchReset => "stopwatch.reset"
  }

  /** Each control has its own id, named after its app. */
  lemma ControlIds(r1: RadioAction, r2: RadioAction, c1: CountdownAction, c2: CountdownAction,
                   s1: StopwatchAction, s2: StopwatchAction)
    ensures RadioActionId(r1) == RadioActionId(r2) ==> r1 == r2
    ensures CountdownActionId(c1) == CountdownActionId(c2) ==> c1 == c2
    ensures StopwatchActionId(s1) == StopwatchActionId(s2) ==> s1 == s2
    ensures RadioActionId(r1)[..6] == "radio."
    ensures CountdownActionId(c1)[..10] == "countdown."
    ensures StopwatchActionId(s1)[..10] == "stopwatch."
  {
    if RadioActionId(r1) == RadioActionId(r2) {
      assert RadioActionId(r1)[7] == RadioActionId(r2)[7];
      assert RadioActionId(r1)[8] == RadioActionId(r2)[8];
    }
    if CountdownActionId(c1) == CountdownActionId(c2) {
      assert CountdownActionId(c1)[11] == CountdownActionId(c2)[11];
    }
    if StopwatchActionId(s1) == StopwatchActionId(s2) {
      assert StopwatchActionId(s1)[11] == StopwatchActionId(s2)[11];
    }
  }

  /** `controlRadio(action:widgetId:)` */
  method ControlRadio<T>(client: Client, net: Network, decode: Decoder<T>, action: RadioAction, widgetId: string)
    returns (r: Result<Response<T>, Failure>)
    ensures r == Execution(client,
                           AppsEndpoint.Info(AppsEndpoint.SendAction(RADIO_PACKAGE, widgetId, Activating(RadioActionId(action)))),
                           net, decode)
  {
    r := ClientApps.SendAction(client, net, decode, RADIO_PACKAGE, widgetId, Activating(RadioActionId(action)));
  }

  /** `controlCountdown(action:widgetId:)` */
  method ControlCountdown<T>(client: Client, net: Network, decode: Decoder<T>, action: CountdownAction, widgetId: string)
    returns (r: Result<Response<T>, Failure>)
    ensures r == Execution(client,
                           AppsEndpoint.Info(AppsEndpoint.SendAction(COUNTDOWN_PACKAGE, widgetId, Activating(CountdownActionId(action)))),
                           net, decode)
  {
    r := ClientApps.SendAction(client, net, decode, COUNTDOWN_PACKAGE, widgetId, Activating(CountdownActionId(action)));
  }

  /** `controlStopwatch(action:widgetId:)` */
  method ControlStopwatch<T>(client: Client, net: Network, decode: Decoder<T>, action: StopwatchAction, widgetId: string)
    returns (r: Result<Response<T>, Failure>)
    ensures r == Execution(client,
                           AppsEndpoint.Info(AppsEndpoint.SendAction(STOPWATCH_PACKAGE, widgetId, Activating(StopwatchActionId(action)))),
                           net, decode)
  {
    r := ClientApps.SendAction(client, net, decode, STOPWATCH_PACKAGE, widgetId, Activating(StopwatchActionId(action)));
  }

  /** `showWeatherForecast(widgetId:)` */
  method ShowWeatherForecast<T>(client: Client, net: Network, decode: Decoder<T>, widgetId: string)
    returns (r: Result<Response<T>, Failure>)
    ensures r == Execution(client,
                           AppsEndpoint.Info(AppsEndpoint.SendAction(WEATHER_PACKAGE, widgetId, Activating("weather.forecast"))),
                           net, decode)
  {
    r := ClientApps.SendAction(client, net, decode, WEATHER_PACKAGE, widgetId, Activating("weather.forecast"));
  }

  /** The built-in package names hold no slash, so their routes cannot be confused with
      another app's. */
  lemma PackagesAreSlashFree()
    ensures NoSlash(CLOCK_PACKAGE) && NoSlash(RADIO_PACKAGE) && NoSlash(COUNTDOWN_PACKAGE)
    ensures NoSlash(STOPWATCH_PACKAGE) && NoSlash(WEATHER_PACKAGE)
  {
  }
}
