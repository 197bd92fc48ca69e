/** An action sent to a widget, with free-form scalar parameters held in the type-erased
    wrapper `AnyCodable`. */
module AppActionModel {
  import opened Wrappers
  import opened Json

  /** What an `AnyCodable` holds. `Other` is any Codable value that is not one of the
      four supported scalars (an array, a `Float`, an `Int32`, ...), named by its type. */
  datatype AnyValue =
    | BoolValue(b: bool)
    | IntValue(i: Int64)
    | StringValue(s: string)
    | DoubleValue(d: Double)
    | Other(typeName: string)

  datatype AnyCodable = AnyCodable(value: AnyValue)

  /** `AppAction.init(id:params:activate:)`: params and activate default to nil. */
  datatype AppAction = AppAction(id: string, params: Option<map<string, AnyCodable>> := None,
                                 activate: Option<bool> := None)

  /** True for a JSON scalar that one of the four trial decodes accepts. */
  predicate IsScalar(j: Json) {
    j.JBool? || j.JInt? || j.JNum? || j.JStr?
  }

  /** `AnyCodable.init(from:)`: try Bool, then Int, then Double, then String; the first
      that succeeds wins, and if none does the error is a type mismatch. */
  function DecodeAnyCodable(j: Json): (r: Decoded<AnyCodable>)
    ensures r.Ok? <==> IsScalar(j)
    ensures r.Err? ==> r.error == TypeMismatch("AnyCodable")
    // A JSON boolean is a Bool, never an Int; an integer is an Int, never a Double or a String.
    ensures j.JBool? ==> r == Ok(AnyCodable(BoolValue(j.b)))
    ensures j.JInt? ==> r == Ok(AnyCodable(IntValue(j.i)))
    ensures j.JNum? ==> r == Ok(AnyCodable(DoubleValue(j.d)))
    ensures j.JStr? ==> r == Ok(AnyCodable(StringValue(j.s)))
  {
    var asBool := DecodeBool(j);
    if asBool.Ok? then Ok(AnyCodable(BoolValue(asBool.value)))
    else
      var asInt := DecodeInt(j);
      if asInt.Ok? then Ok(AnyCodable(IntValue(asInt.value)))
      else
        var asDouble := DecodeDouble(j);
        if asDouble.Ok? then Ok(AnyCodable(DoubleValue(asDouble.value)))
        else
          var asString := DecodeString(j);
          if asString.Ok? then Ok(AnyCodable(StringValue(asString.value)))
          else Err(TypeMismatch("AnyCodable"))
  }

  /** `AnyCodable.encode(to:)`: dispatch on the held type (Bool, Int, String, Double)
      and write that scalar; any other type is an invalid value. */
  function EncodeAnyCodable(a: AnyCodable): (r: Encoded)
    ensures r.Err? <==> a.value.Other?
    ensures r.Ok? ==> IsScalar(r.value)
    ensures a.value.BoolValue? ==> r == Ok(JBool(a.value.b))
    ensures a.value.IntValue? ==> r == Ok(JInt(a.value.i))
    ensures a.value.StringValue? ==> r == Ok(JStr(a.value.s))
  {
    match a.value
    case BoolValue(b) => Ok(JBool(b))
    case IntValue(i) => Ok(JInt(i))
    case StringValue(s) => Ok(JStr(s))
    case DoubleValue(d) => Ok(JNum(d))
    case Other(typeName) => Err(InvalidValue("Unsupported type for AnyCodable"))
  }

  /** Every value of a supported type survives encoding and decoding unchanged. A Double
      is a non-integral number literal here, so it is read back as a Double. */
  lemma AnyCodableRoundTrip(a: AnyCodable)
    requires !a.value.Other?
    ensures EncodeAnyCodable(a).Ok? && DecodeAnyCodable(EncodeAnyCodable(a).value) == Ok(a)
  {
  }

  /** Decoding then encoding gives back the same JSON scalar: `true`, `42`, `3.14` and
      `"s"` all come out as they went in. */
  lemma AnyCodableScalarRoundTrip(j: Json)
    requires IsScalar(j)
    ensures DecodeAnyCodable(j).Ok? && EncodeAnyCodable(DecodeAnyCodable(j).value) == Ok(j)
  {
  }

  /** The parameters of an action: every value must be encodable. */
  function EncodeParams(params: map<string, AnyCodable>): (r: Encoded)
    ensures r.Ok? <==> forall k :: k in params ==> !params[k].value.Other?
    ensures r.Ok? ==> (r.value.JObj? && r.value.fields.Keys == params.Keys &&
                       forall k :: k in params ==> EncodeAnyCodable(params[k]) == Ok(r.value.fields[k]))
  {
    if forall k :: k in params ==> EncodeAnyCodable(params[k]).Ok? then
      Ok(JObj(map k | k in params :: EncodeAnyCodable(params[k]).value))
    else
      Err(InvalidValue("Unsupported type for AnyCodable"))
  }

  /** The synthesized `AppAction.encode(to:)`: the id, then params and activate when
      present. It fails exactly when some parameter holds an unsupported type. */
  function EncodeAppAction(a: AppAction): (r: Encoded)
    ensures r.Ok? <==> (a.params.Some? ==> EncodeParams(a.params.value).Ok?)
    ensures r.Ok? ==> (r.value.JObj? && r.value.fields.Keys ==
                       {"id"} + (if a.params.Some? then {"params"} else {}) + (if a.activate.Some? then {"activate"} else {}))
    ensures r.Ok? ==> r.value.fields["id"] == JStr(a.id)
    ensures r.Ok? && a.params.Some? ==> r.value.fields["params"] == EncodeParams(a.params.value).value
    ensures r.Ok? && a.activate.Some? ==> r.value.fields["activate"] == JBool(a.activate.value)
  {
    var fields := map["id" := JStr(a.id)];
    var withParams :-
      if a.params.None? then Ok(fields)
      else
        var p :- EncodeParams(a.params.value);
        Ok(fields["params" := p]);
    Ok(JObj(PutIfPresent(withParams, "activate", a.activate, b => JBool(b))))
  }

  /** `decode([String: AnyCodable].self)`: an object whose every value is a supported
      scalar; every failing value raises the same type mismatch. */
  function DecodeParams(j: Json): (r: Decoded<map<string, AnyCodable>>)
    ensures r.Ok? <==> j.JObj? && forall k :: k in j.fields ==> IsScalar(j.fields[k])
    ensures r.Ok? ==> r.value.Keys == j.fields.Keys
    ensures r.Ok? ==> forall k :: k in r.value ==> DecodeAnyCodable(j.fields[k]) == Ok(r.value[k])
  {
    var fields :- Container(j);
    if forall k :: k in fields ==> DecodeAnyCodable(fields[k]).Ok? then
      Ok(map k | k in fields :: DecodeAnyCodable(fields[k]).value)
    else
      Err(TypeMismatch("AnyCodable"))
  }

  /** The synthesized `AppAction.init(from:)`: the id is required, params and activate
      are optional. */
  function DecodeAppAction(j: Json): (r: Decoded<AppAction>)
    ensures r.Ok? ==> j.JObj? && "id" in j.fields && j.fields["id"] == JStr(r.value.id)
    ensures r.Ok? ==> (r.value.params.Some? <==> "params" in j.fields && j.fields["params"] != JNull)
    ensures r.Ok? && r.value.params.Some? ==> DecodeParams(j.fields["params"]) == Ok(r.value.params.value)
    ensures r.Ok? ==> (r.value.activate.Some? <==> "activate" in j.fields && j.fields["activate"] != JNull)
  {
    var fields :- Container(j);
    var id :- Required(fields, "id", DecodeString);
    var params :- IfPresent(fields, "params", DecodeParams);
    var activate :- IfPresent(fields, "activate", DecodeBool);
    Ok(AppAction(id, params, activate))
  }

  /** Every action that can be encoded reads back as itself. */
  lemma AppActionRoundTrip(a: AppAction)
    requires EncodeAppAction(a).Ok?
    ensures DecodeAppAction(EncodeAppAction(a).value) == Ok(a)
  {
    if a.params.Some? {
      var params := a.params.value;
      var j := EncodeParams(params).value;
      forall k | k in params
        ensures DecodeAnyCodable(j.fields[k]) == Ok(params[k])
      {
        AnyCodableRoundTrip(params[k]);
      }
      assert DecodeParams(j).Ok?;
      assert DecodeParams(j).value == params;
    }
  }

  /** Built with only an id, an action has neither params nor activate, and its wire
      form is the id alone. */
  lemma AppActionDefaults(id: string)
    ensures AppAction(id).params.None? && AppAction(id).activate.None?
    ensures EncodeAppAction(AppAction(id)) == Ok(JObj(map["id" := JStr(id)]))
  {
  }
}
