/** The response envelope: the raw body and status of a reply, the value eagerly decoded
    from it, and the checks that turn it into a value or an error.

    Decoding a `T` from JSON bytes and pretty-printing JSON are Foundation's; they are
    the parameters `decode` and `prettyJson` here. `String(data:encoding: .utf8)` is the
    strict UTF-8 decoding of `Utf8.Decode`. */
module ResponseEnvelope {
  import opened Wrappers
  import Utf8
  import opened LametricError

  type Bytes = Utf8.Bytes

  /** A decoder for `T`: the value, or the description of the decoding error. */
  type Decoder<!T> = Bytes -> Result<T, string>

  /** `Response<T>`: `decoded` is computed once, when the response is made. */
  datatype Response<T> = Response(decoded: Option<T>, data: Option<Bytes>, statusCode: nat)

  /** `Response.init(_:statusCode:)` with an unsigned status: the body is decoded at once,
      and a body that is missing or fails to decode leaves `decoded` empty. */
  function Init<T>(data: Option<Bytes>, statusCode: nat, decode: Decoder<T>): (r: Response<T>)
    ensures r.data == data && r.statusCode == statusCode
    ensures r.decoded.Some? <==> data.Some? && decode(data.value).Ok?
    ensures r.decoded.Some? ==> decode(data.value) == Ok(r.decoded.value)
  {
    var decoded := if data.Some? && decode(data.value).Ok? then Some(decode(data.value).value) else None;
    Response(decoded, data, statusCode)
  }

  /** `Response.init(_:statusCode:)` with a signed status, converted with `UInt(_:)`,
      which traps on a negative value. */
  function InitInt<T>(data: Option<Bytes>, statusCode: int, decode: Decoder<T>): (r: Response<T>)
    requires statusCode >= 0
    ensures r == Init(data, statusCode, decode)
  {
    Init(data, statusCode as nat, decode)
  }

  /** `isValid`: a 2xx status. */
  predicate IsValid<T>(r: Response<T>) {
    200 <= r.statusCode < 300
  }

  predicate HasBody<T>(r: Response<T>) {
    r.data.Some? && r.data.value != []
  }

  /** The text of bytes, or a marker when they are not UTF-8. */
  function PlainText(data: Bytes): string {
    Utf8.Decode(data).OrElse("[Invalid UTF-8]")
  }

  /** `prettyPrinted`: a marker for a missing or empty body; the pretty-printed JSON when
      the body is JSON; otherwise its plain text. It is declared to throw, but every
      failure inside is caught, so the result is always a value. */
  function PrettyPrinted<T>(r: Response<T>, prettyJson: Bytes -> Option<Bytes>): (p: Result<string, Error>)
    ensures p.Ok?
    ensures !HasBody(r) ==> p.value == "[Empty Response]"
    ensures HasBody(r) && prettyJson(r.data.value).Some? && Utf8.Decode(prettyJson(r.data.value).value).Some? ==>
      p.value == Utf8.Decode(prettyJson(r.data.value).value).value
    // With strict UTF-8 decoding, the fallback for an empty plain text is never taken.
    ensures HasBody(r) && !(prettyJson(r.data.value).Some? && Utf8.Decode(prettyJson(r.data.value).value).Some?) ==>
      p.value == PlainText(r.data.value) && p.value != ""
  {
    if !HasBody(r) then Ok("[Empty Response]")
    else
      var data := r.data.value;
      var pretty := match prettyJson(data)
        case Some(prettyData) => Utf8.Decode(prettyData)
        case None => None;
      if pretty.Some? then Ok(pretty.value)
      else
        var plainString := PlainText(data);
        if plainString == "" then Ok("Empty Response") else Ok(plainString)
  }

  /** `required`: the status is checked first, then the body, then the value decoded when
      the response was made is used, and only when there is none is the body decoded
      again; a failure then carries a readable form of the body. */
  function Required<T>(r: Response<T>, decode: Decoder<T>, prettyJson: Bytes -> Option<Bytes>): (res: Result<T, Error>)
    ensures !IsValid(r) ==> res == Err(InvalidStatusCode(r.statusCode))
    ensures IsValid(r) && !HasBody(r) ==> res == Err(EmptyResponse)
    ensures IsValid(r) && HasBody(r) && r.decoded.Some? ==> res == Ok(r.decoded.value)
    ensures res.Err? && res.error.DecodingFailure? ==>
      IsValid(r) && HasBody(r) && r.decoded.None? && decode(r.data.value) == Err(res.error.error)
    // With nothing decoded in advance, the body is decoded again: its value, or its error.
    ensures IsValid(r) && HasBody(r) && r.decoded.None? ==>
      res == match decode(r.data.value)
             case Ok(v) => Ok(v)
             case Err(e) => Err(DecodingFailure(PrettyPrinted(r, prettyJson).value, e))
    // The chain of fallbacks for the diagnostic always ends at its first link.
    ensures res.Err? && res.error.DecodingFailure? ==> res.error.raw == PrettyPrinted(r, prettyJson).value
  {
    if !IsValid(r) then Err(InvalidStatusCode(r.statusCode))
    else if !HasBody(r) then Err(EmptyResponse)
    else if r.decoded.None? then
      var data := r.data.value;
      match decode(data)
      case Ok(v) => Ok(v)
      case Err(e) =>
        var pretty := PrettyPrinted(r, prettyJson);
        var raw := if pretty.Ok? then pretty.value else PlainText(data);
        Err(DecodingFailure(raw, e))
    else Ok(r.decoded.value)
  }

  /** For a response as the executors make it, `required` yields a value exactly when the
      status is 2xx, the body is non-empty and the body decodes to that value; and a body
      that does not decode fails with the decoder's own error and the pretty-printed body. */
  lemma RequiredOfFreshResponse<T>(data: Option<Bytes>, statusCode: nat, decode: Decoder<T>,
                                   prettyJson: Bytes -> Option<Bytes>, v: T)
    ensures var r := Init(data, statusCode, decode);
      Required(r, decode, prettyJson) == Ok(v) <==>
        200 <= statusCode < 300 && data.Some? && data.value != [] && decode(data.value) == Ok(v)
    ensures var r := Init(data, statusCode, decode);
      200 <= statusCode < 300 && data.Some? && data.value != [] && decode(data.value).Err? ==>
        Required(r, decode, prettyJson) ==
          Err(DecodingFailure(PrettyPrinted(r, prettyJson).value, decode(data.value).error))
  {
  }

  /** A status outside 2xx is reported even when the body decoded; an empty 2xx body is
      reported as empty, never as a decoding failure. */
  lemma RequiredCheckOrder<T>(r: Response<T>, decode: Decoder<T>, prettyJson: Bytes -> Option<Bytes>)
    ensures r.decoded.Some? && !IsValid(r) ==> Required(r, decode, prettyJson).error == InvalidStatusCode(r.statusCode)
    ensures IsValid(r) && r.data == Some([]) ==> Required(r, decode, prettyJson) == Err(EmptyResponse)
  {
  }
}
