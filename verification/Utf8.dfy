/** UTF-8 as Python's str.encode and bytes.decode use it. */
module Utf8 {
  import opened Options
  import opened Json

  type Byte = b: int | 0 <= b < 256

  type Bytes = seq<Byte>

  predicate IsSurrogate(c: int) {
    IsHigh(c) || IsLow(c)
  }

  function EncodeOne(c: CodePoint): (r: Bytes)
    ensures 1 <= |r| <= 4
  {
    if c < 0x80 then [c]
    else if c < 0x800 then [0xC0 + c / 0x40, 0x80 + c % 0x40]
    else if c < 0x10000 then [0xE0 + c / 0x1000, 0x80 + c / 0x40 % 0x40, 0x80 + c % 0x40]
    else [0xF0 + c / 0x40000, 0x80 + c / 0x1000 % 0x40, 0x80 + c / 0x40 % 0x40, 0x80 + c % 0x40]
  }

  /** Every code point encoded, surrogates included. */
  function EncodeAll(s: Str): (r: Bytes) {
    if s == [] then [] else EncodeOne(s[0]) + EncodeAll(s[1..])
  }

  ghost predicate Scalar(s: Str) {
    forall i :: 0 <= i < |s| ==> !IsSurrogate(s[i])
  }

  function Encodable(s: Str): (r: bool)
    ensures r <==> Scalar(s)
  {
    s == [] || (!IsSurrogate(s[0]) && Encodable(s[1..]))
  }

  /** str.encode("utf-8"); None where it raises. */
  function Encode(s: Str): (r: Option<Bytes>) {
    if Encodable(s) then Some(EncodeAll(s)) else None
  }

  /** High bits moved up by a power of two. */
  function Shifted(high: int, weight: int): (r: int) {
    high * weight
  }

  predicate Continues(b: Bytes, from: nat, to: nat) {
    to <= |b| && forall i :: from <= i < to ==> 0x80 <= b[i] < 0xC0
  }

  /** The first code point of b; overlong forms and values past the last code point are refused. */
  function DecodeOne(b: Bytes): (r: Option<(CodePoint, Bytes)>)
    ensures r.Some? ==> |r.value.1| < |b|
  {
    if b == [] then None
    else if b[0] < 0x80 then Some((b[0], b[1..]))
    else if 0xC0 <= b[0] < 0xE0 && Continues(b, 1, 2) then
      var c := Shifted(b[0] - 0xC0, 0x40) + (b[1] - 0x80);
      if c < 0x80 then None else Some((c, b[2..]))
    else if 0xE0 <= b[0] < 0xF0 && Continues(b, 1, 3) then
      var c := Shifted(b[0] - 0xE0, 0x1000) + Shifted(b[1] - 0x80, 0x40) + (b[2] - 0x80);
      if c < 0x800 then None else Some((c, b[3..]))
    else if 0xF0 <= b[0] < 0xF8 && Continues(b, 1, 4) then
      var high := Shifted(b[0] - 0xF0, 0x40000) + Shifted(b[1] - 0x80, 0x1000);
      var c := high + Shifted(b[2] - 0x80, 0x40) + (b[3] - 0x80);
      if c < 0x10000 || c >= 0x110000 then None else Some((c, b[4..]))
    else None
  }

  /** bytes.decode("utf-8", "surrogatepass"); None where it raises. */
  function Decode(b: Bytes): (r: Option<Str>)
    decreases |b|
  {
    if b == [] then Some([])
    else
      var first := DecodeOne(b);
      if first.None? then None
      else
        var rest := Decode(first.value.1);
        if rest.None? then None else Some([first.value.0] + rest.value)
  }

  /** One code point of each encoded length. */
  lemma EncodedExamples()
    ensures EncodeOne(0x41) == [0x41] && EncodeOne(0xE9) == [0xC3, 0xA9]
    ensures EncodeOne(0x20AC) == [0xE2, 0x82, 0xAC] && EncodeOne(0x1F600) == [0xF0, 0x9F, 0x98, 0x80]
  {
  }

  lemma DecodeEncodedOne(c: CodePoint, rest: Bytes)
    ensures DecodeOne(EncodeOne(c) + rest) == Some((c, rest))
  {
    var b := EncodeOne(c) + rest;
    assert b[|EncodeOne(c)|..] == rest;
    SixBitParts(c);
  }

  lemma SixBitParts(c: int)
    requires c >= 0
    ensures c == Shifted(c / 0x40, 0x40) + c % 0x40
    ensures c == Shifted(c / 0x1000, 0x1000) + Shifted(c / 0x40 % 0x40, 0x40) + c % 0x40
    ensures c ==
      Shifted(c / 0x40000, 0x40000) + Shifted(c / 0x1000 % 0x40, 0x1000) + Shifted(c / 0x40 % 0x40, 0x40) + c % 0x40
  {
    var p, q, r := c / 0x40, c / 0x40 / 0x40, c / 0x40 / 0x40 / 0x40;
    assert c / 0x1000 == q && c / 0x40000 == r;
    assert c == p * 0x40 + c % 0x40 && p == q * 0x40 + p % 0x40 && q == r * 0x40 + q % 0x40;
  }

  lemma {:induction false} DecodeEncoded(s: Str)
    ensures Decode(EncodeAll(s)) == Some(s)
  {
    if s != [] {
      hide DecodeOne, EncodeOne;
      DecodeEncodedOne(s[0], EncodeAll(s[1..]));
      DecodeEncoded(s[1..]);
      assert s == [s[0]] + s[1..];
    }
  }

  lemma EncodeInjective(a: Str, b: Str)
    requires Encode(a).Some? && Encode(a) == Encode(b)
    ensures a == b
  {
    DecodeEncoded(a);
    DecodeEncoded(b);
  }
}
