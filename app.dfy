/** The widgets of installed apps, the values and requests of their actions, and the
    configuration of push and poll apps. */
module AppModel {
  import opened Wrappers
  import opened Json

  // ---- widgets ----

  /** A running instance of an app. `visible` is reported only by API 2.3.0 and later. */
  datatype Widget = Widget(index: Int64, package: string, visible: Option<bool> := None)

  /** `Widget.isVisible`: a widget is visible only when the device says so. */
  function IsVisible(w: Widget): (v: bool)
    ensures v <==> w.visible == Some(true)
  {
    w.visible.OrElse(false)
  }

  /** The synthesized `Widget.init(from:)`: index and package are required, visible is
      read with `decodeIfPresent`. */
  function DecodeWidget(j: Json): (r: Decoded<Widget>)
    ensures r.Ok? ==> j.JObj? && "index" in j.fields && "package" in j.fields
  {
    var fields :- Container(j);
    var index :- Required(fields, "index", DecodeInt);
    var package :- Required(fields, "package", DecodeString);
    var visible :- IfPresent(fields, "visible", DecodeBool);
    Ok(Widget(index, package, visible))
  }

  /** A widget from a device older than API 2.3.0 (no "visible" key, or a null one)
      counts as not visible; otherwise it is visible exactly when the key says true. */
  lemma WidgetVisibilityOnTheWire(index: Int64, package: string, fields: map<string, Json>)
    requires fields.Keys <= {"visible"}
    ensures var j := JObj(fields["index" := JInt(index)]["package" := JStr(package)]);
      DecodeWidget(j).Ok? <==> ("visible" in fields ==> fields["visible"].JNull? || fields["visible"].JBool?)
    ensures var j := JObj(fields["index" := JInt(index)]["package" := JStr(package)]);
      DecodeWidget(j).Ok? ==>
        DecodeWidget(j).value.index == index && DecodeWidget(j).value.package == package &&
        (IsVisible(DecodeWidget(j).value) <==> "visible" in fields && fields["visible"] == JBool(true))
  {
    var j := JObj(fields["index" := JInt(index)]["package" := JStr(package)]);
    assert j.fields["index"] == JInt(index);
    assert j.fields["package"] == JStr(package);
    assert "visible" in j.fields <==> "visible" in fields;
    assert "visible" in fields ==> j.fields["visible"] == fields["visible"];
  }

  // ---- apps and their actions ----

  datatype DataType = BoolType | IntType | StringType

  function DataTypeRaw(t: DataType): string {
    match t
    case BoolType => "bool"
    case IntType => "int"
    case StringType => "string"
  }

  // ---- action values ----

  /** The value of one action parameter. */
  datatype ActionValue = BoolParam(b: bool) | IntParam(i: Int64) | StringParam(s: string)

  /** `ActionValue.init(from:)`: try Bool, then Int, then String. There is no Double
      case, so a non-integral number is rejected like an array or an object. */
  function DecodeActionValue(j: Json): (r: Decoded<ActionValue>)
    ensures r.Ok? <==> j.JBool? || j.JInt? || j.JStr?
    ensures r.Err? ==> r.error == TypeMismatch("ActionValue")
    ensures j.JBool? ==> r == Ok(BoolParam(j.b))
    ensures j.JInt? ==> r == Ok(IntParam(j.i))
    ensures j.JStr? ==> r == Ok(StringParam(j.s))
  {
    var asBool := DecodeBool(j);
    if asBool.Ok? then Ok(BoolParam(asBool.value))
    else
      var asInt := DecodeInt(j);
      if asInt.Ok? then Ok(IntParam(asInt.value))
      else
        var asString := DecodeString(j);
        if asString.Ok? then Ok(StringParam(asString.value))
        else Err(TypeMismatch("ActionValue"))
  }

  /** `ActionValue.encode(to:)`: the held scalar, nothing else. */
  function EncodeActionValue(v: ActionValue): (j: Json)
    ensures j.JBool? <==> v.BoolParam?
    ensures j.JInt? <==> v.IntParam?
    ensures j.JStr? <==> v.StringParam?
  {
    match v
    case BoolParam(b) => JBool(b)
    case IntParam(i) => JInt(i)
    case StringParam(s) => JStr(s)
  }

  /** Every action value reads back as itself. */
  lemma ActionValueRoundTrip(v: ActionValue)
    ensures DecodeActionValue(EncodeActionValue(v)) == Ok(v)
  {
  }

  /** Every JSON value the decoder accepts is written back unchanged. */
  lemma ActionValueWireRoundTrip(j: Json)
    requires DecodeActionValue(j).Ok?
    ensures EncodeActionValue(DecodeActionValue(j).value) == j
  {
  }

  // ---- action requests ----

  /** `ActionRequest.init(id:params:activate:)`: no parameters and no activate flag by default. */
  datatype ActionRequest = ActionRequest(id: string, params: map<string, ActionValue> := map[],
                                         activate: Option<bool> := None)

  /** The synthesized encoder: id and params always, activate when present. */
  function EncodeActionRequest(r: ActionRequest): (j: Json)
    ensures j.JObj? && j.fields.Keys == {"id", "params"} + (if r.activate.Some? then {"activate"} else {})
    ensures j.fields["params"].JObj? && j.fields["params"].fields.Keys == r.params.Keys
    ensures forall k :: k in r.params ==> DecodeActionValue(j.fields["params"].fields[k]) == Ok(r.params[k])
  {
    var params := map k | k in r.params :: EncodeActionValue(r.params[k]);
    assert forall k :: k in r.params ==> DecodeActionValue(params[k]) == Ok(r.params[k]) by {
      forall k | k in r.params {
        ActionValueRoundTrip(r.params[k]);
      }
    }
    JObj(PutIfPresent(map["id" := JStr(r.id), "params" := JObj(params)], "activate", r.activate, b => JBool(b)))
  }

  /** `decode([String: ActionValue].self)`: an object whose every value is an action value;
      every failing value raises the same type mismatch. */
  function DecodeActionValues(j: Json): (r: Decoded<map<string, ActionValue>>)
    ensures r.Ok? <==> j.JObj? && forall k :: k in j.fields ==> DecodeActionValue(j.fields[k]).Ok?
    ensures r.Ok? ==> r.value.Keys == j.fields.Keys
    ensures r.Ok? ==> forall k :: k in r.value ==> DecodeActionValue(j.fields[k]) == Ok(r.value[k])
  {
    var fields :- Container(j);
    if forall k :: k in fields ==> DecodeActionValue(fields[k]).Ok? then
      Ok(map k | k in fields :: DecodeActionValue(fields[k]).value)
    else
      Err(TypeMismatch("ActionValue"))
  }

  /** The synthesized decoder: id and params are required, activate is optional. */
  function DecodeActionRequest(j: Json): (r: Decoded<ActionRequest>)
    ensures r.Ok? ==> j.JObj? && "id" in j.fields && "params" in j.fields
    ensures r.Ok? ==> j.fields["id"] == JStr(r.value.id)
    ensures r.Ok? ==> DecodeActionValues(j.fields["params"]) == Ok(r.value.params)
    ensures r.Ok? ==> (r.value.activate.Some? <==> "activate" in j.fields && j.fields["activate"] != JNull)
    ensures j.JObj? && "params" !in j.fields ==> r.Err?
  {
    var fields :- Container(j);
    var id :- Required(fields, "id", DecodeString);
    var params :- Required(fields, "params", DecodeActionValues);
    var activate :- IfPresent(fields, "activate", DecodeBool);
    Ok(ActionRequest(id, params, activate))
  }

  /** Every action request reads back as itself. */
  lemma ActionRequestRoundTrip(r: ActionRequest)
    ensures DecodeActionRequest(EncodeActionRequest(r)) == Ok(r)
  {
    var j := EncodeActionRequest(r);
    var params := DecodeActionValues(j.fields["params"]);
    assert params.Ok?;
    assert params.value == r.params;
  }

  /** A request built from an id alone is written as that id with an empty parameter object. */
  lemma ActionRequestDefaults(id: string)
    ensures ActionRequest(id).params == map[] && ActionRequest(id).activate.None?
    ensures EncodeActionRequest(ActionRequest(id)) == JObj(map["id" := JStr(id), "params" := JObj(map[])])
  {
  }

  // ---- app configuration ----

  datatype CommunicationType = Push | Poll

  function CommunicationTypeRaw(c: CommunicationType): string {
    match c
    case Push => "push"
    case Poll => "poll"
  }

  datatype AppConfiguration = AppConfiguration(communication: CommunicationType, url: Option<string> := None,
                                               accessToken: Option<string> := None,
                                               pollFrequency: Option<Int64> := None)

  /** The default poll frequency, in seconds. */
  const DEFAULT_POLL_FREQUENCY: Int64 := 60

  /** `AppConfiguration.push(accessToken:)` */
  function PushConfiguration(accessToken: string): (c: AppConfiguration)
    ensures c.communication == Push && c.accessToken == Some(accessToken)
    ensures c.url.None? && c.pollFrequency.None?
  {
    AppConfiguration(Push, accessToken := Some(accessToken))
  }

  /** `AppConfiguration.poll(url:frequency:)` */
  function PollConfiguration(url: string, frequency: Int64 := DEFAULT_POLL_FREQUENCY): (c: AppConfiguration)
    ensures c.communication == Poll && c.url == Some(url) && c.pollFrequency == Some(frequency)
    ensures c.accessToken.None?
  {
    AppConfiguration(Poll, url := Some(url), pollFrequency := Some(frequency))
  }

  /** `CommunicationType(rawValue:)` */
  function CommunicationTypeFromRaw(s: string): (r: Option<CommunicationType>)
    ensures r.Some? ==> CommunicationTypeRaw(r.value) == s
  {
    match s
    case "push" => Some(Push)
    case "poll" => Some(Poll)
    case _ => None
  }

  /** The synthesized encoder: the communication type, and exactly the optional fields
      that are present. */
  function EncodeAppConfiguration(c: AppConfiguration): (j: Json)
    ensures j.JObj? && j.fields.Keys <= {"communication", "url", "accessToken", "pollFrequency"}
    ensures "communication" in j.fields && j.fields["communication"] == JStr(CommunicationTypeRaw(c.communication))
    ensures "url" in j.fields <==> c.url.Some?
    ensures "accessToken" in j.fields <==> c.accessToken.Some?
    ensures "pollFrequency" in j.fields <==> c.pollFrequency.Some?
    ensures c.url.Some? ==> j.fields["url"] == JStr(c.url.value)
    ensures c.accessToken.Some? ==> j.fields["accessToken"] == JStr(c.accessToken.value)
    ensures c.pollFrequency.Some? ==> j.fields["pollFrequency"] == JInt(c.pollFrequency.value)
  {
    var fields := map["communication" := JStr(CommunicationTypeRaw(c.communication))];
    var fields := PutIfPresent(fields, "url", c.url, Str);
    var fields := PutIfPresent(fields, "accessToken", c.accessToken, Str);
    JObj(PutIfPresent(fields, "pollFrequency", c.pollFrequency, i => JInt(i)))
  }

  function DecodeCommunicationType(j: Json): Decoded<CommunicationType> {
    DecodeRaw(j, "CommunicationType", CommunicationTypeFromRaw)
  }

  /** The synthesized decoder: the communication type is required and must be "push" or
      "poll"; the other fields are optional. */
  function DecodeAppConfiguration(j: Json): (r: Decoded<AppConfiguration>)
    ensures r.Ok? ==> j.JObj? && "communication" in j.fields
    ensures r.Ok? ==> j.fields["communication"] == JStr(CommunicationTypeRaw(r.value.communication))
    ensures r.Ok? ==> (r.value.url.Some? <==> "url" in j.fields && j.fields["url"] != JNull)
    ensures r.Ok? ==> (r.value.accessToken.Some? <==> "accessToken" in j.fields && j.fields["accessToken"] != JNull)
    ensures r.Ok? ==> (r.value.pollFrequency.Some? <==> "pollFrequency" in j.fields && j.fields["pollFrequency"] != JNull)
    ensures j.JObj? && "communication" !in j.fields ==> r == Err(KeyNotFound("communication"))
  {
    var fields :- Container(j);
    var communication :- Required(fields, "communication", DecodeCommunicationType);
    var url :- IfPresent(fields, "url", DecodeString);
    var accessToken :- IfPresent(fields, "accessToken", DecodeString);
    var pollFrequency :- IfPresent(fields, "pollFrequency", DecodeInt);
    Ok(AppConfiguration(communication, url, accessToken, pollFrequency))
  }

  /** Every configuration reads back as itself. */
  lemma AppConfigurationRoundTrip(c: AppConfiguration)
    ensures DecodeAppConfiguration(EncodeAppConfiguration(c)) == Ok(c)
  {
    assert CommunicationTypeFromRaw(CommunicationTypeRaw(c.communication)) == Some(c.communication);
  }

  /** What the two convenience configurations put on the wire: a push app sends only its
      token, a poll app its URL and a frequency of 60 unless one is given. */
  lemma ConfigurationsOnTheWire(token: string, url: string)
    ensures EncodeAppConfiguration(PushConfiguration(token)) ==
      JObj(map["communication" := JStr("push"), "accessToken" := JStr(token)])
    ensures EncodeAppConfiguration(PollConfiguration(url)) ==
      JObj(map["communication" := JStr("poll"), "url" := JStr(url), "pollFrequency" := JInt(60)])
  {
  }

  /** Wire names are distinct within each enumeration. */
  lemma AppRawValuesInjective(a: DataType, b: DataType, c: CommunicationType, d: CommunicationType)
    ensures DataTypeRaw(a) == DataTypeRaw(b) ==> a == b
    ensures CommunicationTypeRaw(c) == CommunicationTypeRaw(d) ==> c == d
  {
  }
}
