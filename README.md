# LaMetric Time client, modelled in Dafny

This project models the core of a Swift client for the local REST API (v2) of the
LaMetric Time device, and proves properties of that model. It covers:

- **The wire models.**
  - Notification sounds: built-in notification and alarm tones, and custom MP3 sounds with a fallback.
  - Notification frames: simple, goal and chart.
  - The scalar wrappers of app actions (`AnyCodable`) and of action parameters (`ActionValue`).
  - Widgets, action requests and push/poll app configurations.
  - Display and screensaver updates, and notifications.

  Each codec is a function between the model and an abstract JSON value (`Json.Json`) at
  the level of the logical coding keys. The models the client sends are sounds, frames,
  notifications, app actions, action requests, app configurations and display updates.
  For each of these, the model gives the encoder and the decoder, and proves the keys and
  values written, the decoding precedence, the defaults and the round trip
  `decode(encode(x)) == x`. A widget is only received, so only its decoding is modelled.
- **The endpoints.** Every case of the apps, notifications, display, device and list
  endpoints becomes an `Endpoint.EndpointInfo`: an optional prefix, a path, an HTTP method
  and an optional body. The default prefix is `device`.
- **The two request executors.**
  - `UrlSessionExecutor` (Foundation's `URLSession`) and `AsyncHttpClientExecutor`
    (Linux) build the request URL as `base + [prefix + "/"] + path`, set the method, the
    `Content-Type` and `Authorization` headers and the encoded body, and map the transport's
    errors.
  - Both `MakeRequest` methods build the request step by step, as the source does. Each is
    proved equal to a specification function, `RequestFor`.
  - `ExecutorAgreement` proves what the two executors agree on, and where they differ.
- **The response envelope** (`ResponseEnvelope`): the eager decode, `isValid`, the ordered
  checks of `required` and the fallbacks of `prettyPrinted`.
- **The errors** (`LametricError`) and their descriptions.
- **The client** (`LametricClient`):
  - the API-key check;
  - the HTTP Basic credential `base64(utf8("dev:" + key))` of section 2 of RFC 7617;
  - the base URL assembled from a connection, and the `local`/`url` connection defaults;
  - the executor chosen per platform;
  - the app, notification and action facades (`ClientApps`, `ClientNotifications`,
    `ClientActions`).

  `ConfigureAlarm` and `ConfigureCountdown` collect their parameters by map insertion, as
  the source does. Each is proved against the function describing the action it sends.
- **The command-line options** (`CliOptions`): each option falls back to its environment
  variable, then come the ordered validation rules, the choice of connection and the
  making of the client.

The client depends on several things the model cannot see. Each becomes a parameter:

| source | in the model |
|---|---|
| decoding a `T` from JSON bytes | `Decoder<T>` |
| JSON pretty-printing | `prettyJson` |
| `URL(string:)` | `urlValid` |
| the network | `send`, with `Outcome` giving the reply or transport error |
| the process environment | a map |
| the platform | `Platform` |

The base-64 encoding (section 4 of RFC 4648), strict UTF-8 (RFC 3629) and decimal integer
printing are given concrete definitions (`Base64`, `Utf8`, `Decimal`), with their round
trips proved.

Some properties of the source are shown by lemmas without being treated as defects:

- Package names and widget ids are spliced into paths unescaped. So two different
  widget-activation calls can share a URL, and `getApp("next")` has the URL of
  `switchToNext` (`AppsEndpoint.UnescapedIdsCollide`). With slash-free names the URL and
  method identify the call (`AppsEndpoint.RouteInjective`).
- Decoding-failure descriptions can collide when the raw text contains the separator
  (`LametricError.DecodingFailureDescriptionsCanCollide`).
- The `"Empty Response"` fallback of `prettyPrinted` is never reached with strict UTF-8
  (`ResponseEnvelope.PrettyPrinted`). Foundation's decoding drops a leading byte-order mark,
  which the model does not do (see "Left out"). So a body of exactly the three bytes
  EF BB BF does reach that fallback in the source.

## Model

| member | source | states |
|---|---|---|
| SoundModel.SoundRawValuesInjective | Sources/LametricFoundation/Models/Sound.swift:153-205 | The notification and alarm tone names are injective. knockKnock, letterEmail, openDoor and windShort have the wire names "knock-knock", "letter_email", "open_door" and "wind_short". |
| SoundModel.NotificationSoundRawRoundTrip | Sources/LametricFoundation/Models/Sound.swift:153-189 | Looking up a notification tone's wire name gives that tone back. A name found gives a tone whose wire name is that name. |
| SoundModel.AlarmSoundRawRoundTrip | Sources/LametricFoundation/Models/Sound.swift:191-205 | The same two directions for the alarm tones. |
| SoundModel.ResolveTone | Sources/LametricFoundation/Models/Sound.swift:50-71 | In the notifications category an id resolves iff it names a notification tone; in alarms, iff it names an alarm tone. The other category is never tried, and an unknown id is a data-corruption error. |
| SoundModel.DecodeBuiltInSound | Sources/LametricFoundation/Models/Sound.swift:103-130 | A missing category is a key-not-found error. A decoded tone has category and id fields naming its category and its wire name. |
| SoundModel.DecodeSound | Sources/LametricFoundation/Models/Sound.swift:35-73 | The result is custom iff a non-null url is present. A custom sound has type mp3 when type is absent, and without a fallback it fails. repeat is 1 when absent, else the value given. A built-in result's category and id fields name that tone's category and wire name. |
| SoundModel.EncodeBuiltInSound | Sources/LametricFoundation/Models/Sound.swift:132-143 | A built-in tone is written as exactly the category and id keys. |
| SoundModel.EncodeSound | Sources/LametricFoundation/Models/Sound.swift:75-95 | repeat is always written. Built-in tones write exactly category, id and repeat; a custom sound writes exactly url, type, fallback and repeat. |
| SoundModel.BuiltInSoundRoundTrip | Sources/LametricFoundation/Models/Sound.swift:103-143 | Every built-in sound decodes back from its encoding. |
| SoundModel.SoundRoundTrip | Sources/LametricFoundation/Models/Sound.swift:35-95 | Every sound, repeat count included, decodes back from its encoding. |
| SoundModel.MinimalSoundsDecode | Sources/LametricFoundation/Models/Sound.swift:35-73 | A payload with only url and fallback decodes to a custom mp3 sound played once. A payload with only category and id decodes to that notification or alarm tone, played once. |
| FrameModel.DecodeGoalData | Sources/LametricFoundation/Models/Frame.swift:49-68 | Goal data decodes only from an object holding start, current, end and unit. |
| FrameModel.GoalDataRoundTrip | Sources/LametricFoundation/Models/Frame.swift:49-68 | Goal data decodes back from its encoding. |
| FrameModel.DecodeFrame | Sources/LametricFoundation/Models/Frame.swift:80-93 | A present chartData gives a chart, whatever else is present. Otherwise a present goalData gives a goal carrying the decoded goal data and the icon, with text dropped. Otherwise the result is simple, with the icon and text found. An object with none of the keys decodes to simple(nil, nil). |
| FrameModel.EncodeFrame | Sources/LametricFoundation/Models/Frame.swift:95-110 | simple writes only the icon and text present. goal writes goalData and the icon only if present. chart writes only chartData. |
| FrameModel.FrameRoundTrip | Sources/LametricFoundation/Models/Frame.swift:80-110 | Every frame decodes back from its encoding. |
| FrameModel.ConvenienceFramesOnTheWire | Sources/LametricFoundation/Models/Frame.swift:16-44 | text(t), icon(i) and iconAndText are simple frames with only those fields on the wire. goal(...) packs start, current, end and unit unchanged. |
| FrameModel.ChartDataWinsExample | Sources/LametricFoundation/Models/Frame.swift:83-84 | An object with chartData, icon, text and goalData decodes to the chart alone. |
| FrameModel.PriorityAndIconTypeRawRoundTrip | Sources/LametricFoundation/Models/Frame.swift:115-125 | Priority and icon-type wire names read back as the same case. |
| FrameModel.PriorityAndIconTypeRawInjective | Sources/LametricFoundation/Models/Frame.swift:115-125 | Distinct priorities, and distinct icon types, have distinct wire names. |
| AppActionModel.DecodeAnyCodable | Sources/LametricFoundation/Models/AppAction.swift:43-60 | The decode succeeds iff the value is a scalar. A boolean decodes as bool, never int; an integer as int, never double or string; a number as double; a string as string. Anything else is a type mismatch. |
| AppActionModel.EncodeAnyCodable | Sources/LametricFoundation/Models/AppAction.swift:23-41 | The encode fails (invalidValue) iff the held value is of no supported type. Otherwise it writes exactly the held scalar. |
| AppActionModel.AnyCodableRoundTrip | Sources/LametricFoundation/Models/AppAction.swift:23-60 | Every value of a supported type (Bool, Int, String, and Double as a non-integral number) survives encode then decode. |
| AppActionModel.AnyCodableScalarRoundTrip | Sources/LametricFoundation/Models/AppAction.swift:23-60 | Every scalar JSON value survives decode then encode. |
| AppActionModel.EncodeParams | Sources/LametricFoundation/Models/AppAction.swift:23-41 | A parameter map encodes iff every value does, with the same keys. |
| AppActionModel.EncodeAppAction | Sources/LametricFoundation/Models/AppAction.swift:3-12 | An action encodes iff its params do. It writes exactly id, plus params and activate when present: id as a string, params as the encoded parameter object, activate as a boolean. |
| AppActionModel.AppActionDefaults | Sources/LametricFoundation/Models/AppAction.swift:8-12 | AppAction(id) has no params and no activate, and is written as just the id. |
| AppActionModel.DecodeParams | Sources/LametricFoundation/Models/AppAction.swift:5 | A parameter object decodes iff every value is a scalar, with the same keys, each value decoded as AnyCodable. |
| AppActionModel.DecodeAppAction | Sources/LametricFoundation/Models/AppAction.swift:3-6 | id is required as a string. params and activate are present iff their key holds a non-null value, and params then decodes from it. |
| AppActionModel.AppActionRoundTrip | Sources/LametricFoundation/Models/AppAction.swift:3-60 | Every action that encodes decodes back from its encoding. |
| AppModel.IsVisible | Sources/LametricFoundation/Models/App.swift:51-53 | A widget is visible iff visible is present and true (`visible ?? false`). |
| AppModel.DecodeWidget | Sources/LametricFoundation/Models/App.swift:43-60 | A widget decodes only from an object with index and package. |
| AppModel.WidgetVisibilityOnTheWire | Sources/LametricFoundation/Models/App.swift:43-60 | A widget without visible decodes as not visible, and with visible=true as visible. |
| AppModel.DecodeActionValue | Sources/LametricFoundation/Models/App.swift:126-144 | The decode succeeds iff the value is a bool, an int or a string, tried in that order, with no double case. Anything else is a type mismatch. |
| AppModel.EncodeActionValue | Sources/LametricFoundation/Models/App.swift:146-157 | The encode writes the held scalar's own kind. |
| AppModel.ActionValueRoundTrip | Sources/LametricFoundation/Models/App.swift:121-158 | decode(encode(v)) == v for every action value. |
| AppModel.ActionValueWireRoundTrip | Sources/LametricFoundation/Models/App.swift:121-158 | A JSON value that decodes is written back unchanged. |
| AppModel.EncodeActionRequest | Sources/LametricFoundation/Models/App.swift:92-111 | A request writes id, params, and activate only when present. Every parameter reads back as itself. |
| AppModel.ActionRequestDefaults | Sources/LametricFoundation/Models/App.swift:102-110 | ActionRequest(id) has empty params and no activate. |
| AppModel.DecodeActionValues | Sources/LametricFoundation/Models/App.swift:97 | A parameter object decodes iff every value is a bool, an int or a string, with the same keys, each value decoded as ActionValue. |
| AppModel.DecodeActionRequest | Sources/LametricFoundation/Models/App.swift:92-100 | id and params are required; without params the decode fails. activate is present iff its key holds a non-null value. |
| AppModel.ActionRequestRoundTrip | Sources/LametricFoundation/Models/App.swift:92-157 | Every action request decodes back from its encoding. |
| AppModel.PushConfiguration | Sources/LametricFoundation/Models/App.swift:188-193 | push(t) has communication push and access token t, with no url and no poll frequency. |
| AppModel.PollConfiguration | Sources/LametricFoundation/Models/App.swift:196-205 | poll(u) has communication poll, url u and the given frequency, with no access token. |
| AppModel.EncodeAppConfiguration | Sources/LametricFoundation/Models/App.swift:162-211 | Exactly communication, with its raw name, plus each of url, accessToken and pollFrequency when present, each with its own value. No other key is written. |
| AppModel.DecodeAppConfiguration | Sources/LametricFoundation/Models/App.swift:162-211 | communication is required, and a missing one is keyNotFound. It must be a raw name. Each optional field is present iff its key holds a non-null value. |
| AppModel.AppConfigurationRoundTrip | Sources/LametricFoundation/Models/App.swift:162-211 | Every configuration decodes back from its encoding. |
| AppModel.ConfigurationsOnTheWire | Sources/LametricFoundation/Models/App.swift:188-205 | The push and poll configurations on the wire; the poll frequency defaults to 60. |
| AppModel.AppRawValuesInjective | Sources/LametricFoundation/Models/App.swift:115-119 | Data types, and communication types (App.swift:208-211), have distinct raw names. |
| DisplayModel.DisplayRawRoundTrip | Sources/LametricFoundation/Models/Display.swift:19-30 | Brightness-mode, display-type and screensaver-mode (Display.swift:123-126) names read back as the same case. The Swift case names "fullRGB", "whenDark" and "timeBased" are not wire names. |
| DisplayModel.DisplayRawValuesInjective | Sources/LametricFoundation/Models/Display.swift:19-30 | The raw names are distinct within each enumeration. |
| DisplayModel.WhenDarkUpdate | Sources/LametricFoundation/Models/Display.swift:97-103 | whenDark(e) enables the screensaver with mode whenDark. Only the mode parameters' enabled is e, and no start or end time is set. |
| DisplayModel.TimeBasedUpdate | Sources/LametricFoundation/Models/Display.swift:106-120 | timeBased(e, s, t) enables the screensaver with mode timeBased and carries e, s and t unchanged. |
| DisplayModel.EncodeModeParams | Sources/LametricFoundation/Models/Display.swift:128-147 | Exactly the fields present are written, each with its value (enabled a boolean, startTime and endTime strings). No other key is written. |
| DisplayModel.DecodeModeParams | Sources/LametricFoundation/Models/Display.swift:128-147 | Each field is present iff its key holds a non-null value. |
| DisplayModel.ModeParamsRoundTrip | Sources/LametricFoundation/Models/Display.swift:128-147 | Mode parameters decode back from their encoding. |
| DisplayModel.EncodeScreensaverUpdate | Sources/LametricFoundation/Models/Display.swift:76-94 | Exactly the fields present are written: enabled as a boolean, mode by its raw name, modeParams as an object that decodes back to them. No other key is written. |
| DisplayModel.DecodeScreensaverUpdate | Sources/LametricFoundation/Models/Display.swift:76-94 | Each field is present iff its key holds a non-null value. A decoded mode is the one named on the wire, and a string naming no mode fails. |
| DisplayModel.ScreensaverUpdateRoundTrip | Sources/LametricFoundation/Models/Display.swift:76-94 | Screensaver updates decode back from their encoding. |
| DisplayModel.EncodeDisplayStateUpdate | Sources/LametricFoundation/Models/Display.swift:55-74 | Exactly the fields present are written: brightness as an integer, brightnessMode by its raw name, screensaver as an object that decodes back to it. No other key is written, so unmentioned settings are left alone. |
| DisplayModel.DecodeDisplayStateUpdate | Sources/LametricFoundation/Models/Display.swift:55-74 | Each field is present iff its key holds a non-null value. brightness and brightnessMode are the values on the wire. |
| DisplayModel.DisplayStateUpdateRoundTrip | Sources/LametricFoundation/Models/Display.swift:55-74 | Display updates decode back from their encoding. |
| DisplayModel.EmptyUpdates | Sources/LametricFoundation/Models/Display.swift:65-73 | DisplayStateUpdate() and ScreensaverModeParams() (Display.swift:138-146) have every field nil and are written as empty objects. |
| DisplayModel.ScreensaverUpdatesOnTheWire | Sources/LametricFoundation/Models/Display.swift:97-120 | The whenDark and timeBased updates on the wire. |
| NotificationModel.NotificationWithFrames | Sources/LametricFoundation/Models/Notification.swift:29-45 | The frames initialiser builds Model(frames, sound, cycles) and stores priority, icon type and lifetime, all unchanged. |
| NotificationModel.FramesInitializerDefaults | Sources/LametricFoundation/Models/Notification.swift:16-36 | By default sound, cycles, priority and lifetime are nil and the icon type is none. The result equals the primary initialiser's on Model(frames). |
| NotificationModel.EncodeFrames | Sources/LametricFoundation/Models/Model.swift:5-24 | The frames are written in order, each with the frame codec. |
| NotificationModel.DecodeFrameItems | Sources/LametricFoundation/Models/Model.swift:5-24 | A list decodes iff every item does, item by item. |
| NotificationModel.FramesRoundTrip | Sources/LametricFoundation/Models/Model.swift:5-24 | Every frame list decodes back from its encoding. |
| NotificationModel.EncodeModel | Sources/LametricFoundation/Models/Model.swift:5-24 | frames is always written; sound and cycles iff present. |
| NotificationModel.ModelRoundTrip | Sources/LametricFoundation/Models/Model.swift:5-24 | Every model decodes back from its encoding. |
| NotificationModel.EncodeNotification | Sources/LametricFoundation/Models/Notification.swift:3-26 | model and iconType are always written; priority and lifetime iff present. |
| NotificationModel.NotificationRoundTrip | Sources/LametricFoundation/Models/Notification.swift:3-26 | Every notification decodes back from its encoding. |
| NotificationModel.HelloNotificationOnTheWire | Sources/LametricFoundation/Models/Notification.swift:29-45 | A one-frame text notification with priority info, on the wire. |
| Endpoint.EncodeBody | Sources/Lametric/Endpoint.swift:4-15 | Encoding a body fails iff it is an app action that does not encode. A notification or display update body is its own encoding. |
| AppsEndpoint.Prefix | Sources/Lametric/Endpoints/Apps.swift:17 | The prefix is always "device". |
| AppsEndpoint.PathShape | Sources/Lametric/Endpoints/Apps.swift:19-34 | getAll's path is "apps"; every other path is "apps/" followed by the route of the case. |
| AppsEndpoint.Body | Sources/Lametric/Endpoints/Apps.swift:50-56 | There is a body iff the case is sendAction, and it is that action unchanged. |
| AppsEndpoint.Info | Sources/Lametric/Endpoints/Apps.swift:16-56 | The prefix is the default. A body implies POST, so a body only ever goes with POST or PUT. |
| AppsEndpoint.RouteInjective | Sources/Lametric/Endpoints/Apps.swift:19-48 | With slash-free package names and widget ids, equal paths and methods mean the same call, up to the action carried. |
| AppsEndpoint.UnescapedIdsCollide | Sources/Lametric/Endpoints/Apps.swift:27-32 | Ids are spliced in verbatim. activateWidget("a/widgets/b", "c") and activateWidget("a", "b/widgets/c") share a path, and getApp("next") shares switchToNext's path but not its method. |
| NotificationsEndpoint.Body | Sources/Lametric/Endpoints/Notifications.swift:29-34 | There is a body iff the case is send, and it is the notification unchanged. |
| NotificationsEndpoint.Info | Sources/Lametric/Endpoints/Notifications.swift:12-34 | The prefix is "device". There is a body iff the method is POST. |
| NotificationsEndpoint.RouteInjective | Sources/Lametric/Endpoints/Notifications.swift:14-27 | Equal paths and methods mean the same call, up to the notification sent. |
| DisplayStateEndpoint.Body | Sources/Lametric/Endpoints/DisplayState.swift:22-27 | There is a body iff the case is put, and it is the update unchanged. |
| DisplayStateEndpoint.Info | Sources/Lametric/Endpoints/DisplayState.swift:12-27 | The prefix is "device" and the path "display". There is a body iff the method is PUT. |
| DeviceEndpoint.Info | Sources/Lametric/Endpoints/Device.swift:11-29 | state has prefix "device", an empty path, GET and no body. |
| ListEndpoint.Info | Sources/Lametric/Endpoints/List.swift:11-14 | No prefix, an empty path, GET and no body. |
| HttpExecutor.UrlDeterminesPath | Sources/Lametric/Client/HTTPExecutor/URLSessionExecutor.swift:55-61 | For one base and prefix, two request URLs are equal iff the paths are. |
| HttpExecutor.EmptyPrefixIsNoPrefix | Sources/Lametric/Client/HTTPExecutor/URLSessionExecutor.swift:57-61 | An empty prefix gives the same URL as none: base + path. |
| HttpExecutor.EncodedBody | Sources/Lametric/Client/HTTPExecutor/URLSessionExecutor.swift:73-75 | A body is attached iff the endpoint has one. Encoding fails only when that body fails, with its error. |
| HttpExecutor.MethodRawIsUppercase | Sources/Lametric/Client/HTTPExecutor/URLSessionExecutor.swift:68 | Uppercasing the raw method changes nothing. |
| HttpExecutor.MethodRawInjective | Sources/Lametric/Client/HTTPExecutor/AsyncHTTPClientExecutor.swift:68 | Distinct methods have distinct raw names. |
| UrlSessionExecutor.RequestFor | Sources/Lametric/Client/HTTPExecutor/URLSessionExecutor.swift:54-78 | An unparseable URL fails with invalidURL, before the body is encoded. A body that fails to encode is that failure. Otherwise the request has the URL base + [prefix + "/"] + path and the uppercased raw method. Its only headers are Content-Type "application/json" and Authorization "Basic " + credential. It carries the encoded body iff the endpoint has one. |
| UrlSessionExecutor.MakeRequest | Sources/Lametric/Client/HTTPExecutor/URLSessionExecutor.swift:54-78 | The step-by-step construction equals RequestFor. |
| UrlSessionExecutor.HandleOutcome | Sources/Lametric/Client/HTTPExecutor/URLSessionExecutor.swift:39-51 | A timed-out error becomes timeout, and any other error is rethrown. A non-HTTP reply is invalidResponse. An HTTP reply is the response made from its data and status. |
| UrlSessionExecutor.ExecuteRequest | Sources/Lametric/Client/HTTPExecutor/URLSessionExecutor.swift:21-52 | A request that cannot be made is that failure. Otherwise the result is the handled outcome of sending it. |
| AsyncHttpClientExecutor.RequestFor | Sources/Lametric/Client/HTTPExecutor/AsyncHTTPClientExecutor.swift:55-85 | The only failure is a body that does not encode. The request has the same URL rule and the raw method. Its only headers are content-type and authorization with the same values. It carries the encoded body iff the endpoint has one. |
| AsyncHttpClientExecutor.MakeRequest | Sources/Lametric/Client/HTTPExecutor/AsyncHTTPClientExecutor.swift:55-85 | The step-by-step construction equals RequestFor. |
| AsyncHttpClientExecutor.HandleOutcome | Sources/Lametric/Client/HTTPExecutor/AsyncHTTPClientExecutor.swift:43-52 | deadlineExceeded becomes timeout, and every other error is rethrown. A reply is the response made from its data and status. |
| AsyncHttpClientExecutor.ExecuteRequest | Sources/Lametric/Client/HTTPExecutor/AsyncHTTPClientExecutor.swift:25-53 | A request that cannot be made is that failure. Otherwise the result is the handled outcome of sending it. |
| ExecutorAgreement.RequestsAgree | Sources/Lametric/Client/HTTPExecutor/AsyncHTTPClientExecutor.swift:55-85 | For a URL that parses, both executors (URLSessionExecutor.swift:54-78 too) fail alike or build the same URL, method and body. They send the same number of headers, each session header's lower-cased name carrying the same value. |
| ExecutorAgreement.HeadersAgree | Sources/Lametric/Client/HTTPExecutor/AsyncHTTPClientExecutor.swift:75-82 | The two header maps match name for name, up to case. |
| ExecutorAgreement.EncodingFailuresAgree | Sources/Lametric/Client/HTTPExecutor/AsyncHTTPClientExecutor.swift:70-73 | Both executors throw an unencodable body, except that the session reports a bad URL first. |
| ExecutorAgreement.OutcomesAgree | Sources/Lametric/Client/HTTPExecutor/AsyncHTTPClientExecutor.swift:48-52 | An HTTP reply gives the same response on both executors. Each turns only its own timeout error into timeout (URLSessionExecutor.swift:47-48) and passes the other's through. |
| ExecutorAgreement.RequiredAfterReply | Sources/Lametric/Response.swift:9-48 | After a reply, `required` gives v iff the status is 2xx, the body is non-empty and it decodes to v. |
| ResponseEnvelope.Init | Sources/Lametric/Response.swift:9-15 | Data and status are kept. decoded is present iff data is present and decodes, and is then the decoded value. |
| ResponseEnvelope.InitInt | Sources/Lametric/Response.swift:17-19 | The Int-status initialiser is the unsigned one, for a status that is not negative. |
| ResponseEnvelope.PrettyPrinted | Sources/Lametric/Response.swift:50-77 | Never fails. "[Empty Response]" for a missing or empty body. The pretty JSON text when the body pretty-prints as UTF-8, otherwise the plain text or "[Invalid UTF-8]", never empty. |
| ResponseEnvelope.Required | Sources/Lametric/Response.swift:25-48 | Errors come in a fixed order. A non-2xx status is invalidStatusCode, even with a decoded value. A missing or empty 2xx body is emptyResponse. Then the cached value is returned. Otherwise the body is decoded again: its value is returned, or its error becomes decodingFailure carrying the prettyPrinted text and the decoder's error. |
| ResponseEnvelope.RequiredOfFreshResponse | Sources/Lametric/Response.swift:9-48 | For a fresh response, `required` gives v iff the status is 2xx, the data non-empty and it decodes to v. A body that does not decode fails with its pretty-printed text. |
| ResponseEnvelope.RequiredCheckOrder | Sources/Lametric/Response.swift:26-33 | A bad status wins over a decoded value. An empty 2xx body is emptyResponse, never a decoding failure. |
| LametricError.Description | Sources/Lametric/Error.swift:14-35 | Every description is non-empty. invalidStatusCode(c) is "Invalid status code: " + c. decodingFailure(raw, e) is "Failed to decode JSON: " + raw + "\nError: " + e. timeout ends with the hint about the local device name. Every other case has its fixed message. |
| LametricError.DescriptionDistinguishesCases | Sources/Lametric/Error.swift:3-35 | Distinct errors have distinct descriptions, apart from decoding failures, which the next row covers. |
| LametricError.DecodingFailureDescriptionsCanCollide | Sources/Lametric/Error.swift:27-28 | Two different decoding failures can have the same description. |
| Decimal.NatRoundTrip | Sources/Lametric/Client/LametricClient.swift:107-109 | Decimal printing of a natural number parses back. |
| Decimal.IntRoundTrip | Sources/Lametric/Client/LametricClient.swift:107-109 | Decimal printing of an integer, as a port is printed, parses back. |
| Decimal.IntToStringInjective | Sources/Lametric/Client/LametricClient.swift:107-109 | Distinct integers print differently. |
| Utf8.RoundTrip | Sources/Lametric/Client/LametricClient.swift:22 | UTF-8 encoding of any string decodes back to it. |
| Utf8.EncodeAppend | Sources/Lametric/Client/LametricClient.swift:22 | UTF-8 encoding distributes over concatenation. |
| Base64.Encode | Sources/Lametric/Client/LametricClient.swift:25 | The encoding has 4 characters per started 3 bytes. |
| Base64.EncodeGroup | Sources/Lametric/Client/LametricClient.swift:25 | Each group is 4 characters, padded with "=" exactly for a short last group. |
| Base64.RoundTrip | Sources/Lametric/Client/LametricClient.swift:25 | Decoding the base-64 encoding of any bytes gives them back. |
| Base64.EncodeInjective | Sources/Lametric/Client/LametricClient.swift:25 | Distinct byte strings encode differently. |
| LametricClient.Local | Sources/Lametric/Client/LametricClient.swift:84-89 | local(name) is http to name, on port 8080 unless another port is given. |
| LametricClient.Url | Sources/Lametric/Client/LametricClient.swift:91-97 | url(host) is https and has no port unless they are given. |
| LametricClient.PortString | Sources/Lametric/Client/LametricClient.swift:106-109 | Empty iff there is no port. Otherwise ":" followed by text that parses back to the port. |
| LametricClient.DefaultBaseUrls | Sources/Lametric/Client/LametricClient.swift:28-31 | local(name) gives "http://" + name + ":8080/api/v2/"; url(host) gives "https://" + host + "/api/v2/". |
| LametricClient.BaseUrlDeterminesPort | Sources/Lametric/Client/LametricClient.swift:28-31 | For one scheme and host, equal base URLs mean equal connections. |
| LametricClient.AuthHeaderRoundTrip | Sources/Lametric/Client/LametricClient.swift:22-25 | The credential decodes (base 64, then UTF-8) to "dev:" + key. |
| LametricClient.AuthHeaderInjective | Sources/Lametric/Client/LametricClient.swift:22-25 | Distinct keys give distinct credentials. |
| LametricClient.Init | Sources/Lametric/Client/LametricClient.swift:16-46 | The client fails iff the key is empty, with invalidApiKey. Otherwise it holds the credential of the key, the verbosity and the base URL of the connection. The executor is URLSession's exactly on Darwin, and gets the same credential, base URL and verbosity. |
| LametricClient.Execute | Sources/Lametric/Client/LametricClient.swift:33-45 | Executing runs the chosen executor. |
| LametricClient.SentRequest | Sources/Lametric/Client/LametricClient.swift:16-46 | On either platform, a request built by a client made from key k goes to base URL + [prefix + "/"] + path. It has the endpoint's method and encoded body, and carries "Basic " + the credential of k. |
| LametricClient.ListEndpoints | Sources/Lametric/Client/LametricClient.swift:73-75 | listEndpoints executes the list endpoint. |
| LametricClient.ListEndpointsUrl | Sources/Lametric/Client/LametricClient.swift:73-75 | The list of endpoints is read with GET from the base URL itself. |
| ClientApps.GetAll | Sources/Lametric/Client/LametricClient+Apps.swift:12-14 | Executes Apps.getAll. |
| ClientApps.SwitchToNext | Sources/Lametric/Client/LametricClient+Apps.swift:18-20 | Executes Apps.switchToNext. |
| ClientApps.SwitchToPrevious | Sources/Lametric/Client/LametricClient+Apps.swift:24-26 | Executes Apps.switchToPrevious. |
| ClientApps.GetApp | Sources/Lametric/Client/LametricClient+Apps.swift:29-31 | Executes getApp with the package unchanged. |
| ClientApps.SendAction | Sources/Lametric/Client/LametricClient+Apps.swift:35-45 | Executes sendAction with package, widget id and action unchanged. |
| ClientApps.ActivateWidget | Sources/Lametric/Client/LametricClient+Apps.swift:49-57 | Executes activateWidget with package and widget id unchanged. |
| ClientApps.AppsUrls | Sources/Lametric/Client/LametricClient+Apps.swift:12-57 | The concrete URLs under base + "device/apps", for example ".../apps/" + p + "/widgets/" + w + "/actions" with POST. Activation uses PUT. |
| ClientApps.RequestIdentifiesCall | Sources/Lametric/Client/LametricClient+Apps.swift:12-57 | With slash-free names, the URL and method sent identify the app call. |
| ClientNotifications.Send | Sources/Lametric/Client/LametricClient+Notifications.swift:13-15 | Executes Notifications.send with the notification unchanged. |
| ClientNotifications.GetQueue | Sources/Lametric/Client/LametricClient+Notifications.swift:18-20 | Executes Notifications.getQueue. |
| ClientNotifications.Remove | Sources/Lametric/Client/LametricClient+Notifications.swift:24-26 | Executes Notifications.remove with the id unchanged. |
| ClientNotifications.NotificationsUrls | Sources/Lametric/Client/LametricClient+Notifications.swift:13-26 | send and getQueue go to base + "device/notifications", and remove to ".../notifications/" + id. A sent notification's body is its encoding. |
| ClientNotifications.RequestIdentifiesCall | Sources/Lametric/Client/LametricClient+Notifications.swift:13-26 | The URL and method sent identify the notification call. |
| ClientActions.Activating | Sources/Lametric/Client/LametricClient+Actions.swift:49-52 | A control action has the id, no params and activate true, and is written as exactly id and activate. |
| ClientActions.NilIfEmpty | Sources/Lametric/Client/LametricClient+Actions.swift:25 | Params are nil iff the map is empty, and otherwise the map itself. |
| ClientActions.AlarmActionContents | Sources/Lametric/Client/LametricClient+Actions.swift:11-27 | The alarm action is "clock.alarm" with activate true. Its params are nil iff no option is given. It holds "enabled", "time" and "wake_with_radio" exactly for the options given, with their values. It always encodes. |
| ClientActions.ConfigureAlarm | Sources/Lametric/Client/LametricClient+Actions.swift:5-34 | Collecting the params one by one sends the alarm action to com.lametric.clock with the caller's widget id. |
| ClientActions.CountdownConfigurationContents | Sources/Lametric/Client/LametricClient+Actions.swift:67-80 | The countdown action is "countdown.configure" with activate true. Its params are nil iff no option is given. It holds "duration" and "start_now" exactly for the options given. It always encodes. |
| ClientActions.ConfigureCountdown | Sources/Lametric/Client/LametricClient+Actions.swift:62-87 | Sends that action to com.lametric.countdown with the caller's widget id. |
| ClientActions.ControlIds | Sources/Lametric/Client/LametricClient+Actions.swift:42-47 | Radio, countdown (95-99) and stopwatch (119-123) controls map to distinct ids, prefixed "radio.", "countdown." and "stopwatch.". |
| ClientActions.ControlRadio | Sources/Lametric/Client/LametricClient+Actions.swift:37-59 | Sends the activating radio action to com.lametric.radio with the caller's widget id. |
| ClientActions.ControlCountdown | Sources/Lametric/Client/LametricClient+Actions.swift:90-111 | Sends the activating countdown action to com.lametric.countdown. |
| ClientActions.ControlStopwatch | Sources/Lametric/Client/LametricClient+Actions.swift:114-135 | Sends the activating stopwatch action to com.lametric.stopwatch. |
| ClientActions.ShowWeatherForecast | Sources/Lametric/Client/LametricClient+Actions.swift:138-149 | Sends the activating "weather.forecast" action to com.lametric.weather. |
| CliOptions.OrEnvironment | Sources/lametric-cli/LametricCLI+Options.swift:17-19 | A command-line value wins over its environment variable, as for the host (32-34) and the API key (63-65). |
| CliOptions.ParseBool | Sources/lametric-cli/LametricCLI+Options.swift:85 | Swift's Bool(_:) on a string: true only for "true", false only for "false". |
| CliOptions.VerboseOneIgnored | Sources/lametric-cli/LametricCLI+Options.swift:76-86 | As written, verbose is on iff the flag is set or VERBOSE is "true". It differs from the corrected reading exactly when there is no flag and VERBOSE is "1". |
| CliOptions.Verbose | Sources/lametric-cli/LametricCLI+Options.swift:71 | Verbose is on iff the flag is set, or VERBOSE is "1" or "true", as the help text says. |
| CliOptions.Validate | Sources/lametric-cli/LametricCLI+Options.swift:88-113 | Validation succeeds iff a name or host is given, a local name does not come with https, not both are given, and an API key is given. Missing target is reported first, then https with a local name. |
| CliOptions.ConnectionFor | Sources/lametric-cli/LametricCLI+Options.swift:119-126 | A local name wins: http to it on port ?? 8080. Otherwise a host with scheme ?? https and the port. With neither, the no-target error. |
| CliOptions.MakeClient | Sources/lametric-cli/LametricCLI+Options.swift:118-133 | The connection's error is passed on. Otherwise the client fails iff the key (missing taken as "") is empty, with invalidApiKey. Otherwise it is the client made from the key, the connection and the verbosity as the program reads it: verbose iff the flag is set or VERBOSE is "true". |
| CliOptions.ValidatedOptionsMakeClient | Sources/lametric-cli/LametricCLI+Options.swift:88-133 | After validation, making the client fails only for an empty key, with invalidApiKey. A local device is always reached over http. |

## Left out

- Network I/O, async execution and the 5-second deadline:
  - the transport is the parameter `send`, and the model never runs it;
  - a failure to collect the body of an AsyncHTTPClient reply is folded into the transport's errors;
  - timing is not modelled.
- Verbose printing in both executors: it only prints, and does not change the request.
- Header order, and the `HTTPFields`/`URLRequest` containers: headers are a map from name to value.
- The model works at the level of the logical coding keys and never produces JSON bytes. The following are not modelled:
  - Foundation's `JSONEncoder`/`JSONDecoder` and their snake_case key strategies (Sources/LametricFoundation/Codable.swift:6-16);
  - `JSONSerialization`, which is the parameter `prettyJson`.
- Floating point: a JSON number that is not an integer is an opaque literal with no arithmetic.
- Integer width: JSON integers are 64-bit (`Json.Int64`). Poll frequencies are 64-bit, like the other JSON integers. Ports and status codes are unbounded, so Swift's overflow traps are not modelled.
- ResponseEnvelope.InitInt: requires a non-negative status instead of modelling the trap of `UInt(_:)` on a negative one.
- Foundation's string nuances:
  - `String(data:encoding: .utf8)` is strict UTF-8 decoding with no byte-order-mark handling;
  - `uppercased()`/`lowercased()` are modelled on ASCII letters only, which covers the method names and header names they are applied to.
- `URL(string:)` is the parameter `urlValid`; URL syntax is not modelled.
- AnyCodableRoundTrip: a Double is always a non-integral number literal in the model. Foundation writes an integral Double such as 3.0 as the integer 3, which `AnyCodable` then reads back as an Int; the model cannot show this.
- AppActionModel.EncodeAnyCodable: of the encoder's failures, only the unsupported-value case of `AnyCodable` is modelled. Every other model always encodes.
- The device and display facades (`LametricClient+Device.swift`, `LametricClient+Display.swift`) are not part of this model: they refer to an executor type that the client does not define. Their endpoints (`DeviceEndpoint`, `DisplayStateEndpoint`) are modelled.
- The command-line commands (argument parsing, coloured output, the parameter conversion of the apps command) are not part of this model.
- Response payload records (apps and their actions, device, display state, notification and endpoint-list responses) carry no behaviour. They are the type parameter `T` of `Response<T>`, decoded by `Decoder<T>`.

## Findings

| source | as written | input that shows it | evidently intended | confidence | as-written member | corrected member |
|---|---|---|---|---|---|---|
| Sources/lametric-cli/LametricCLI+Options.swift:85 | verbose reads VERBOSE with `Bool(_:)` or a comparison with "true", so only "true" turns it on | no --verbose flag and VERBOSE=1 in the environment: verbose is off | VERBOSE=1 or VERBOSE=true turns verbose on, as the option's help (line 71) says | not executed | CliOptions.VerboseAsWritten (shown by CliOptions.VerboseOneIgnored) | CliOptions.Verbose |
