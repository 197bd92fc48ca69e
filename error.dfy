/** The errors the client raises, and the message each one describes itself with. */
module LametricError {
  import opened Wrappers
  import opened Decimal

  /** The client's error cases. The underlying error of a decoding failure is kept as
      its own description. */
  datatype Error =
    | InvalidApiKey
    | EmptyResponse
    | Timeout
    | InvalidStatusCode(code: nat)
    | InvalidJsonResponse
    | DecodingFailure(raw: string, error: string)
    | InvalidUrl
    | InvalidResponse

  const STATUS_PREFIX := "Invalid status code: "
  const DECODING_PREFIX := "Failed to decode JSON: "
  const DECODING_SEPARATOR := "\nError: "
  const DEVICE_NAME_HINT := "When using local, make sure that the device name is correct"
  const TIMEOUT_MESSAGE := "The request timed out. " + DEVICE_NAME_HINT

  /** `Error.description` */
  function Description(e: Error): (d: string)
    ensures |d| > 0
    // The status code is written in decimal after a fixed prefix, and can be read back.
    ensures e.InvalidStatusCode? ==>
      |d| > |STATUS_PREFIX| && d[..|STATUS_PREFIX|] == STATUS_PREFIX &&
      ParseNat(d[|STATUS_PREFIX|..]) == Some(e.code)
    // A decoding failure shows the raw payload, then the underlying error.
    ensures e.DecodingFailure? ==>
      d == DECODING_PREFIX + e.raw + DECODING_SEPARATOR + e.error
    // A timeout ends with the hint about the local device name.
    ensures e.Timeout? ==> d == TIMEOUT_MESSAGE && d[|d| - |DEVICE_NAME_HINT|..] == DEVICE_NAME_HINT
    // Every other case has a fixed message.
    ensures e.InvalidApiKey? ==> d == "Invalid API key"
    ensures e.EmptyResponse? ==> d == "Empty response"
    ensures e.InvalidJsonResponse? ==> d == "The response could not be parsed as JSON"
    ensures e.InvalidUrl? ==> d == "Invalid URL"
    ensures e.InvalidResponse? ==> d == "Invalid response"
  {
    match e
    case InvalidApiKey => "Invalid API key"
    case EmptyResponse => "Empty response"
    case Timeout => TIMEOUT_MESSAGE
    case InvalidStatusCode(code) =>
      var digits := NatToString(code);
      NatRoundTrip(code);
      assert (STATUS_PREFIX + digits)[|STATUS_PREFIX|..] == digits;
      STATUS_PREFIX + digits
    case InvalidJsonResponse => "The response could not be parsed as JSON"
    case DecodingFailure(raw, error) => DECODING_PREFIX + raw + DECODING_SEPARATOR + error
    case InvalidUrl => "Invalid URL"
    case InvalidResponse => "Invalid response"
  }

  /** The message tells the cases apart: two errors with the same description are the
      same error, except that two decoding failures may share one (the raw payload may
      itself contain the separator). */
  lemma DescriptionDistinguishesCases(e1: Error, e2: Error)
    requires !(e1.DecodingFailure? && e2.DecodingFailure?)
    ensures Description(e1) == Description(e2) ==> e1 == e2
  {
    if Description(e1) == Description(e2) {
      var d := Description(e1);
      if e1.InvalidStatusCode? && e2.InvalidStatusCode? {
        assert Some(e1.code) == ParseNat(d[|STATUS_PREFIX|..]) == Some(e2.code);
      } else if e1.InvalidStatusCode? {
        StatusDescriptionShape(e1, e2);
      } else if e2.InvalidStatusCode? {
        StatusDescriptionShape(e2, e1);
      } else if e1.DecodingFailure? {
        DecodingDescriptionShape(e1, e2);
      } else if e2.DecodingFailure? {
        DecodingDescriptionShape(e2, e1);
      }
    }
  }

  lemma StatusDescriptionShape(e: Error, other: Error)
    requires e.InvalidStatusCode? && !other.InvalidStatusCode? && !other.DecodingFailure?
    ensures Description(e) != Description(other)
  {
    var d := Description(e);
    assert d[..|STATUS_PREFIX|] == STATUS_PREFIX;
    assert d[8] == 's';
  }

  lemma DecodingDescriptionShape(e: Error, other: Error)
    requires e.DecodingFailure? && !other.InvalidStatusCode? && !other.DecodingFailure?
    ensures Description(e) != Description(other)
  {
    var d := Description(e);
    assert d == DECODING_PREFIX + (e.raw + DECODING_SEPARATOR + e.error);
    assert d[0] == 'F';
    match other {
      case InvalidApiKey =>
      case EmptyResponse =>
      case Timeout => assert TIMEOUT_MESSAGE[0] == 'T';
      case InvalidJsonResponse =>
      case InvalidUrl =>
      case InvalidResponse =>
    }
  }

  /** Two different decoding failures can share a description. */
  lemma DecodingFailureDescriptionsCanCollide()
    ensures DecodingFailure("a" + DECODING_SEPARATOR + "b", "c") != DecodingFailure("a", "b" + DECODING_SEPARATOR + "c")
    ensures Description(DecodingFailure("a" + DECODING_SEPARATOR + "b", "c")) ==
            Description(DecodingFailure("a", "b" + DECODING_SEPARATOR + "c"))
  {
    assert "a" + DECODING_SEPARATOR + "b" != "a";
  }
}
