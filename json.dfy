/** An abstract JSON value and the keyed-container rules of Swift's `Codable` that the
    hand-written codecs rely on.

    Object keys are the logical coding-key names of the models (`goalData`, `repeat`);
    the snake_case rewriting the shared encoder and decoder apply to every key is not
    part of this model. */
module Json {
  import opened Wrappers

  /** Swift's `Int` is 64 bits wide; JSON integers that do not fit are not modelled. */
  const INT64_MIN: int := -0x8000_0000_0000_0000
  const INT64_MAX: int := 0x7FFF_FFFF_FFFF_FFFF
  type Int64 = i: int | INT64_MIN <= i <= INT64_MAX

  /** A floating-point payload, kept opaque: no numeric reasoning is done on it. */
  datatype Double = Double(literal: string)

  /** `JInt` is an integer literal; `JNum` a number literal that is not an integer. */
  datatype Json =
    | JNull
    | JBool(b: bool)
    | JInt(i: Int64)
    | JNum(d: Double)
    | JStr(s: string)
    | JArr(items: seq<Json>)
    | JObj(fields: map<string, Json>)

  /** The `DecodingError` cases the codecs can raise. */
  datatype DecodeError =
    | TypeMismatch(expected: string)
    | KeyNotFound(key: string)
    | ValueNotFound(key: string)
    | DataCorrupted(description: string)

  type Decoded<T> = Result<T, DecodeError>

  /** `singleValueContainer().decode(Bool.self)` */
  function DecodeBool(j: Json): (r: Decoded<bool>)
    ensures r.Ok? <==> j.JBool?
    ensures r.Ok? ==> r.value == j.b
  {
    if j.JBool? then Ok(j.b) else Err(TypeMismatch("Bool"))
  }

  /** `decode(Int.self)`: only an integer literal is accepted. */
  function DecodeInt(j: Json): (r: Decoded<Int64>)
    ensures r.Ok? <==> j.JInt?
    ensures r.Ok? ==> r.value == j.i
  {
    if j.JInt? then Ok(j.i) else Err(TypeMismatch("Int"))
  }

  /** `decode(Double.self)`. An integer literal would also be accepted by Swift, but every
      caller tries `Int` first, so only the non-integral case is ever reached. */
  function DecodeDouble(j: Json): (r: Decoded<Double>)
    ensures r.Ok? <==> j.JNum?
    ensures r.Ok? ==> r.value == j.d
  {
    if j.JNum? then Ok(j.d) else Err(TypeMismatch("Double"))
  }

  /** `decode(String.self)` */
  function DecodeString(j: Json): (r: Decoded<string>)
    ensures r.Ok? <==> j.JStr?
    ensures r.Ok? ==> r.value == j.s
  {
    if j.JStr? then Ok(j.s) else Err(TypeMismatch("String"))
  }

  /** `decode([Int].self)`: an array whose every element is an integer literal. */
  function DecodeIntArray(j: Json): (r: Decoded<seq<Int64>>)
    ensures r.Ok? <==> j.JArr? && forall k :: 0 <= k < |j.items| ==> j.items[k].JInt?
    ensures r.Ok? ==> |r.value| == |j.items| && forall k :: 0 <= k < |r.value| ==> j.items[k] == JInt(r.value[k])
  {
    if !j.JArr? then Err(TypeMismatch("Array<Int>")) else DecodeInts(j.items)
  }

  function DecodeInts(items: seq<Json>): (r: Decoded<seq<Int64>>)
    ensures r.Ok? <==> forall k :: 0 <= k < |items| ==> items[k].JInt?
    ensures r.Ok? ==> |r.value| == |items| && forall k :: 0 <= k < |r.value| ==> items[k] == JInt(r.value[k])
  {
    if items == [] then Ok([])
    else if !items[0].JInt? then Err(TypeMismatch("Int"))
    else
      var rest := DecodeInts(items[1..]);
      if rest.Err? then Err(rest.error)
      else Ok([items[0].i] + rest.value)
  }

  /** `encode([Int])` */
  function EncodeIntArray(xs: seq<Int64>): (j: Json)
    ensures j.JArr? && |j.items| == |xs|
    ensures forall k :: 0 <= k < |xs| ==> j.items[k] == JInt(xs[k])
  {
    JArr(seq(|xs|, k requires 0 <= k < |xs| => JInt(xs[k])))
  }

  /** `decode([Int].self)` reads back what `encode([Int])` wrote. */
  lemma IntArrayRoundTrip(xs: seq<Int64>)
    ensures DecodeIntArray(EncodeIntArray(xs)) == Ok(xs)
  {
    var r := DecodeIntArray(EncodeIntArray(xs));
    assert r.Ok?;
    assert r.value == xs;
  }

  /** A raw-value enumeration decoded from its string: a string that names no case is
      a data-corruption error, as for every `enum X: String, Codable`. */
  function DecodeRaw<T>(j: Json, typeName: string, fromRaw: string -> Option<T>): (r: Decoded<T>)
    ensures r.Ok? <==> j.JStr? && fromRaw(j.s).Some?
    ensures r.Ok? ==> Some(r.value) == fromRaw(j.s)
    ensures j.JStr? && fromRaw(j.s).None? ==> r.error.DataCorrupted?
  {
    if !j.JStr? then Err(TypeMismatch("String"))
    else match fromRaw(j.s)
      case Some(v) => Ok(v)
      case None => Err(DataCorrupted("Cannot initialize " + typeName + " from invalid String value " + j.s))
  }

  /** The object behind `decoder.container(keyedBy:)`; anything else is a type mismatch. */
  function Container(j: Json): (r: Decoded<map<string, Json>>)
    ensures r.Ok? <==> j.JObj?
    ensures r.Ok? ==> r.value == j.fields
  {
    if j.JObj? then Ok(j.fields) else Err(TypeMismatch("Dictionary"))
  }

  /** `decodeIfPresent(_:forKey:)`: an absent key and an explicit `null` both give nil;
      any other value must decode. */
  function IfPresent<T>(fields: map<string, Json>, key: string, f: Json -> Decoded<T>): (r: Decoded<Option<T>>)
    ensures key !in fields || fields[key] == JNull ==> r == Ok(None)
    ensures key in fields && fields[key] != JNull ==>
      (r.Ok? <==> f(fields[key]).Ok?) && (r.Ok? ==> r.value == Some(f(fields[key]).value))
  {
    if key !in fields || fields[key] == JNull then Ok(None)
    else match f(fields[key])
      case Ok(v) => Ok(Some(v))
      case Err(e) => Err(e)
  }

  /** `decode(_:forKey:)`: an absent key and an explicit `null` are both errors. */
  function Required<T>(fields: map<string, Json>, key: string, f: Json -> Decoded<T>): (r: Decoded<T>)
    ensures key !in fields ==> r == Err(KeyNotFound(key))
    ensures key in fields && fields[key] == JNull ==> r == Err(ValueNotFound(key))
    ensures key in fields && fields[key] != JNull ==> r == f(fields[key])
  {
    if key !in fields then Err(KeyNotFound(key))
    else if fields[key] == JNull then Err(ValueNotFound(key))
    else f(fields[key])
  }

  /** `encodeIfPresent(_:forKey:)`: nil writes no key at all. */
  function PutIfPresent<T>(fields: map<string, Json>, key: string, v: Option<T>, f: T -> Json): (r: map<string, Json>)
    ensures v.None? ==> r == fields
    ensures v.Some? ==> r == fields[key := f(v.value)]
  {
    match v
    case None => fields
    case Some(x) => fields[key := f(x)]
  }

  /** The `EncodingError` a hand-written encoder can raise. */
  datatype EncodeError = InvalidValue(description: string)

  type Encoded = Result<Json, EncodeError>

  function Str(s: string): Json { JStr(s) }
}
