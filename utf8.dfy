/** Octets, and the UTF-8 encoding of text (RFC 3629) that `String.data(using: .utf8)`
    and `String(data:encoding: .utf8)` perform. */
module Utf8 {
  import opened Wrappers

  type Byte = b: int | 0 <= b < 256
  type Bytes = seq<Byte>

  /** The bytes of one Unicode scalar value: one to four, by the size of the value. */
  function EncodeChar(c: char): (bs: Bytes)
    ensures 1 <= |bs| <= 4
    ensures |bs| == 1 <==> (c as int) < 0x80
  {
    var cp := c as int;
    var lo, q1 := cp % 64, cp / 64;
    var mid, q2 := q1 % 64, q1 / 64;
    var hi, q3 := q2 % 64, q2 / 64;
    if cp < 0x80 then [cp]
    else if cp < 0x800 then [0xC0 + q1, 0x80 + lo]
    else if cp < 0x1_0000 then [0xE0 + q2, 0x80 + mid, 0x80 + lo]
    else [0xF0 + q3, 0x80 + hi, 0x80 + mid, 0x80 + lo]
  }

  /** `String.data(using: .utf8)`: the characters' encodings, one after the other. */
  function Encode(s: string): (bs: Bytes)
    ensures |bs| >= |s|
    ensures s == [] <==> bs == []
  {
    if s == [] then [] else EncodeChar(s[0]) + Encode(s[1..])
  }

  predicate IsContinuation(b: Byte) {
    0x80 <= b < 0xC0
  }

  /** The payload bits of a byte once its marker bits `marker` are taken away. */
  function Bits(b: Byte, marker: int): int {
    b as int - marker
  }

  /** The scalar value at the head of `bs` and the number of bytes it takes, when the head
      is a well-formed, shortest-form encoding of a scalar value. */
  function DecodeHead(bs: Bytes): (r: Option<(char, nat)>)
    ensures r.Some? ==> 1 <= r.value.1 <= |bs| && r.value.1 <= 4
  {
    if |bs| == 0 then None
    else if bs[0] < 0x80 then Some((bs[0] as char, 1))
    else if 0xC2 <= bs[0] < 0xE0 then
      if |bs| < 2 || !IsContinuation(bs[1]) then None
      else Some(((Bits(bs[0], 0xC0) * 64 + Bits(bs[1], 0x80)) as char, 2))
    else if 0xE0 <= bs[0] < 0xF0 then
      if |bs| < 3 || !IsContinuation(bs[1]) || !IsContinuation(bs[2]) then None
      else
        var cp := Bits(bs[0], 0xE0) * 4096 + Bits(bs[1], 0x80) * 64 + Bits(bs[2], 0x80);
        if cp < 0x800 || (0xD800 <= cp < 0xE000) then None else Some((cp as char, 3))
    else if 0xF0 <= bs[0] < 0xF5 then
      if |bs| < 4 || !IsContinuation(bs[1]) || !IsContinuation(bs[2]) || !IsContinuation(bs[3]) then None
      else
        var cp := Bits(bs[0], 0xF0) * 262144 + Bits(bs[1], 0x80) * 4096 + Bits(bs[2], 0x80) * 64 + Bits(bs[3], 0x80);
        if cp < 0x1_0000 || cp > 0x10_FFFF then None else Some((cp as char, 4))
    else None
  }

  /** `String(data:encoding: .utf8)`: the text, or nothing when the bytes are not UTF-8. */
  function Decode(bs: Bytes): (r: Option<string>)
    ensures r.Some? ==> |r.value| <= |bs| && (r.value == [] <==> bs == [])
    decreases |bs|
  {
    if bs == [] then Some([])
    else match DecodeHead(bs)
      case None => None
      case Some((c, n)) =>
        match Decode(bs[n..])
        case None => None
        case Some(rest) => Some([c] + rest)
  }

  /** The encoding of one character is read back as that character, whatever follows it. */
  lemma DecodeHeadEncodeChar(c: char, tail: Bytes)
    ensures DecodeHead(EncodeChar(c) + tail) == Some((c, |EncodeChar(c)|))
  {
    var cp := c as int;
    if cp < 0x80 {
    } else if cp < 0x800 {
      DecodeTwoBytes(c, tail);
    } else if cp < 0x1_0000 {
      DecodeThreeBytes(c, tail);
    } else {
      DecodeFourBytes(c, tail);
    }
  }

  lemma DecodeTwoBytes(c: char, tail: Bytes)
    requires 0x80 <= c as int < 0x800
    ensures DecodeHead(EncodeChar(c) + tail) == Some((c, 2))
  {
    var cp := c as int;
    var lo, q1 := cp % 64, cp / 64;
    assert q1 * 64 + lo == cp;
    var bs := EncodeChar(c) + tail;
    assert bs[0] == 0xC0 + q1 && bs[1] == 0x80 + lo;
  }

  lemma DecodeThreeBytes(c: char, tail: Bytes)
    requires 0x800 <= c as int < 0x1_0000
    ensures DecodeHead(EncodeChar(c) + tail) == Some((c, 3))
  {
    var cp := c as int;
    var lo, q1 := cp % 64, cp / 64;
    var mid, q2 := q1 % 64, q1 / 64;
    assert q1 * 64 + lo == cp && q2 * 64 + mid == q1;
    var bs := EncodeChar(c) + tail;
    assert bs[0] == 0xE0 + q2 && bs[1] == 0x80 + mid && bs[2] == 0x80 + lo;
  }

  lemma DecodeFourBytes(c: char, tail: Bytes)
    requires 0x1_0000 <= c as int
    ensures DecodeHead(EncodeChar(c) + tail) == Some((c, 4))
  {
    var cp := c as int;
    var lo, q1 := cp % 64, cp / 64;
    var mid, q2 := q1 % 64, q1 / 64;
    var hi, q3 := q2 % 64, q2 / 64;
    assert q1 * 64 + lo == cp && q2 * 64 + mid == q1 && q3 * 64 + hi == q2;
    assert q3 * 262144 + hi * 4096 + mid * 64 + lo == cp;
    var bs := EncodeChar(c) + tail;
    assert bs[0] == 0xF0 + q3 && bs[1] == 0x80 + hi && bs[2] == 0x80 + mid && bs[3] == 0x80 + lo;
  }

  /** Every string reads back from its UTF-8 encoding. */
  lemma {:induction false} RoundTrip(s: string)
    ensures Decode(Encode(s)) == Some(s)
  {
    if s != [] {
      var head := EncodeChar(s[0]);
      var tail := Encode(s[1..]);
      assert Encode(s) == head + tail;
      DecodeHeadEncodeChar(s[0], tail);
      assert (head + tail)[|head|..] == tail;
      RoundTrip(s[1..]);
      assert [s[0]] + s[1..] == s;
    }
  }

  /** The encoding of a concatenation is the concatenation of the encodings. */
  lemma {:induction false} EncodeAppend(s: string, t: string)
    ensures Encode(s + t) == Encode(s) + Encode(t)
  {
    if s == [] {
      assert s + t == t;
    } else {
      assert (s + t)[0] == s[0];
      assert (s + t)[1..] == s[1..] + t;
      EncodeAppend(s[1..], t);
    }
  }
}
