/** The base 64 encoding of section 4 of RFC 4648 (standard alphabet, `=` padding, no
    line breaks), as `Data.base64EncodedString()` produces it, and its decoding. */
module Base64 {
  import opened Wrappers
  import opened Utf8

  /** The character of a 6-bit group: A-Z, a-z, 0-9, then '+' and '/'. */
  function SextetChar(v: nat): (c: char)
    requires v < 64
    ensures c != '='
  {
    if v < 26 then ('A' as int + v) as char
    else if v < 52 then ('a' as int + (v - 26)) as char
    else if v < 62 then ('0' as int + (v - 52)) as char
    else if v == 62 then '+'
    else '/'
  }

  /** The 6-bit group a character of the alphabet stands for. */
  function SextetValue(c: char): (r: Option<nat>)
    ensures r.Some? ==> r.value < 64 && SextetChar(r.value) == c
  {
    if 'A' <= c <= 'Z' then Some(c as int - 'A' as int)
    else if 'a' <= c <= 'z' then Some(c as int - 'a' as int + 26)
    else if '0' <= c <= '9' then Some(c as int - '0' as int + 52)
    else if c == '+' then Some(62)
    else if c == '/' then Some(63)
    else None
  }

  lemma SextetRoundTrip(v: nat)
    requires v < 64
    ensures SextetValue(SextetChar(v)) == Some(v)
  {
  }

  /** One group of one to three bytes as four characters, `=` standing in for each
      character a short final group does not fill. */
  function EncodeGroup(bs: Bytes): (q: string)
    requires 1 <= |bs| <= 3
    ensures |q| == 4 && q[0] != '=' && q[1] != '='
    ensures (q[2] == '=') <==> |bs| == 1
    ensures (q[3] == '=') <==> |bs| < 3
  {
    var b0 := bs[0];
    var b1 := if |bs| > 1 then bs[1] else 0;
    var b2 := if |bs| > 2 then bs[2] else 0;
    [SextetChar(b0 / 4), SextetChar(b0 % 4 * 16 + b1 / 16),
     if |bs| > 1 then SextetChar(b1 % 16 * 4 + b2 / 64) else '=',
     if |bs| > 2 then SextetChar(b2 % 64) else '=']
  }

  /** Each group of three bytes becomes four characters; a final group of one or two bytes
      is padded with `==` or `=`. */
  function Encode(bs: Bytes): (s: string)
    ensures |s| == (|bs| + 2) / 3 * 4
  {
    if |bs| == 0 then ""
    else if |bs| <= 2 then EncodeGroup(bs)
    else EncodeGroup(bs[..3]) + Encode(bs[3..])
  }

  /** Reads back one group of four characters. Padding is accepted only in the last group
      (`last`), and only with zero bits left over in front of it. */
  function DecodeGroup(q: string, last: bool): (r: Option<Bytes>)
    requires |q| == 4
    ensures r.Some? ==> 1 <= |r.value| <= 3 && (|r.value| < 3 ==> last)
  {
    var v0, v1 := SextetValue(q[0]), SextetValue(q[1]);
    if v0.None? || v1.None? then None
    else
      var byte0 := v0.value * 4 + v1.value / 16;
      if q[2] == '=' then
        if q[3] == '=' && last && v1.value % 16 == 0 then Some([byte0]) else None
      else
        var v2 := SextetValue(q[2]);
        if v2.None? then None
        else
          var byte1 := v1.value % 16 * 16 + v2.value / 4;
          if q[3] == '=' then
            if last && v2.value % 4 == 0 then Some([byte0, byte1]) else None
          else
            var v3 := SextetValue(q[3]);
            if v3.None? then None
            else Some([byte0, byte1, v2.value % 4 * 64 + v3.value])
  }

  /** Reads back a padded encoding; anything that `Encode` cannot produce is rejected
      (a length that is not a multiple of four, a character outside the alphabet, padding
      before the last group, or non-zero bits left over in front of the padding). */
  function Decode(s: string): (r: Option<Bytes>)
    ensures r.Some? ==> |s| % 4 == 0
    decreases |s|
  {
    if |s| == 0 then Some([])
    else if |s| < 4 then None
    else match DecodeGroup(s[..4], |s| == 4)
      case None => None
      case Some(group) =>
        match Decode(s[4..])
        case None => None
        case Some(rest) => Some(group + rest)
  }

  /** The bit arithmetic of one group: the sextets of three bytes give the bytes back. */
  lemma GroupBits(b0: Byte, b1: Byte, b2: Byte)
    ensures var v1 := b0 % 4 * 16 + b1 / 16;
            var v2 := b1 % 16 * 4 + b2 / 64;
            b0 / 4 * 4 + v1 / 16 == b0 && v1 % 16 * 16 + v2 / 4 == b1 && v2 % 4 * 64 + b2 % 64 == b2 &&
            (b1 == 0 ==> v1 % 16 == 0) && (b2 == 0 ==> v2 % 4 == 0)
  {
    var v1 := b0 % 4 * 16 + b1 / 16;
    var v2 := b1 % 16 * 4 + b2 / 64;
    assert v1 / 16 == b0 % 4 && v1 % 16 == b1 / 16;
    assert v2 / 4 == b1 % 16 && v2 % 4 == b2 / 64;
  }

  /** Every group reads back as itself. */
  lemma GroupRoundTrip(bs: Bytes, last: bool)
    requires 1 <= |bs| <= 3 && (|bs| < 3 ==> last)
    ensures DecodeGroup(EncodeGroup(bs), last) == Some(bs)
  {
    var b0 := bs[0];
    var b1 := if |bs| > 1 then bs[1] else 0;
    var b2 := if |bs| > 2 then bs[2] else 0;
    GroupBits(b0, b1, b2);
    SextetRoundTrip(b0 / 4);
    SextetRoundTrip(b0 % 4 * 16 + b1 / 16);
    if |bs| == 1 {
      assert bs == [b0];
    } else if |bs| == 2 {
      PairRoundTrip(bs, b0, b1);
    } else {
      TripleRoundTrip(bs, last, b0, b1, b2);
    }
  }

  lemma PairRoundTrip(bs: Bytes, b0: Byte, b1: Byte)
    requires bs == [b0, b1]
    requires SextetValue(SextetChar(b0 / 4)) == Some(b0 / 4)
    requires SextetValue(SextetChar(b0 % 4 * 16 + b1 / 16)) == Some(b0 % 4 * 16 + b1 / 16)
    ensures DecodeGroup(EncodeGroup(bs), true) == Some(bs)
  {
    GroupBits(b0, b1, 0);
    SextetRoundTrip(b1 % 16 * 4);
  }

  lemma TripleRoundTrip(bs: Bytes, last: bool, b0: Byte, b1: Byte, b2: Byte)
    requires bs == [b0, b1, b2]
    requires SextetValue(SextetChar(b0 / 4)) == Some(b0 / 4)
    requires SextetValue(SextetChar(b0 % 4 * 16 + b1 / 16)) == Some(b0 % 4 * 16 + b1 / 16)
    ensures DecodeGroup(EncodeGroup(bs), last) == Some(bs)
  {
    GroupBits(b0, b1, b2);
    SextetRoundTrip(b1 % 16 * 4 + b2 / 64);
    SextetRoundTrip(b2 % 64);
  }

  /** Every byte string reads back from its encoding. */
  lemma {:induction false} RoundTrip(bs: Bytes)
    ensures Decode(Encode(bs)) == Some(bs)
  {
    if 1 <= |bs| <= 2 {
      var s := Encode(bs);
      GroupRoundTrip(bs, true);
      assert s[..4] == s && s[4..] == [];
      assert bs + [] == bs;
    } else if |bs| > 2 {
      var s := Encode(bs);
      GroupRoundTrip(bs[..3], |bs| == 3);
      assert s[..4] == EncodeGroup(bs[..3]);
      assert s[4..] == Encode(bs[3..]);
      RoundTrip(bs[3..]);
      assert bs[..3] + bs[3..] == bs;
    }
  }

  /** Distinct byte strings have distinct encodings. */
  lemma EncodeInjective(a: Bytes, b: Bytes)
    ensures Encode(a) == Encode(b) ==> a == b
  {
    RoundTrip(a);
    RoundTrip(b);
  }
}
