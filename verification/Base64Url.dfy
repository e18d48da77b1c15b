/** Base64url without padding (sections 5 and 3.2 of RFC 4648), decoded as leniently as Python does. */
module Base64Url {
  import opened Options
  import opened Json
  import opened Utf8

  const PAD: CodePoint := 61

  function Letter(v: int): (r: CodePoint)
    requires 0 <= v < 64
  {
    if v < 26 then 65 + v
    else if v < 52 then 97 + v - 26
    else if v < 62 then 48 + v - 52
    else if v == 62 then 45
    else 95
  }

  /** The value of a character of either the URL-safe or the standard alphabet. */
  function Sextet(c: int): (r: Option<int>)
    ensures r.Some? ==> 0 <= r.value < 64
  {
    if 65 <= c <= 90 then Some(c - 65)
    else if 97 <= c <= 122 then Some(c - 97 + 26)
    else if 48 <= c <= 57 then Some(c - 48 + 52)
    else if c == 45 || c == 43 then Some(62)
    else if c == 95 || c == 47 then Some(63)
    else None
  }

  /** The four letters of three bytes. */
  function Group(b: Byte, c: Byte, d: Byte): (r: Str)
    ensures |r| == 4
  {
    [Letter(b / 4), Letter(b % 4 * 16 + c / 16), Letter(c % 16 * 4 + d / 64), Letter(d % 64)]
  }

  function Encode64(b: Bytes): (r: Str)
    decreases |b|
  {
    if b == [] then []
    else if |b| == 1 then [Letter(b[0] / 4), Letter(b[0] % 4 * 16)]
    else if |b| == 2 then [Letter(b[0] / 4), Letter(b[0] % 4 * 16 + b[1] / 16), Letter(b[1] % 16 * 4)]
    else Group(b[0], b[1], b[2]) + Encode64(b[3..])
  }

  function Cons(b: Byte, rest: Option<Bytes>): (r: Option<Bytes>) {
    if rest.None? then None else Some([b] + rest.value)
  }

  /**
   * binascii.a2b_base64 from a position inside a group of four: `quad` characters of the group are
   * read, `left` holds the bits not yet written, `pads` counts the padding. Characters outside the
   * alphabet are skipped, and a complete padding ends the input.
   */
  function Scan(s: Str, quad: nat, left: nat, pads: nat): (r: Option<Bytes>)
    requires quad < 4 && (quad == 1 ==> left < 64) && (quad == 2 ==> left < 16) && (quad == 3 ==> left < 4)
    decreases |s|
  {
    if s == [] then
      if quad == 0 then Some([]) else None
    else if s[0] == PAD then
      if quad >= 2 && quad + pads + 1 >= 4 then Some([])
      else Scan(s[1..], quad, left, if quad >= 2 then pads + 1 else pads)
    else
      match Sextet(s[0])
      case None => Scan(s[1..], quad, left, pads)
      case Some(v) =>
        if quad == 0 then Scan(s[1..], 1, v, 0)
        else if quad == 1 then Cons(left * 4 + v / 16, Scan(s[1..], 2, v % 16, 0))
        else if quad == 2 then Cons(left * 16 + v / 4, Scan(s[1..], 3, v % 4, 0))
        else Cons(left * 64 + v, Scan(s[1..], 0, 0, 0))
  }

  function Padding(length: nat): (r: Str)
    ensures |r| == (4 - length % 4) % 4
  {
    seq((4 - length % 4) % 4, _ => PAD)
  }

  /** _b64decode; None where it raises ValueError. */
  function Decode64(s: Str): (r: Option<Bytes>) {
    if exists i :: 0 <= i < |s| && s[i] >= 0x80 then None else Scan(s + Padding(|s|), 0, 0, 0)
  }

  /** The characters base64url uses. */
  predicate IsLetter(c: int) {
    65 <= c <= 90 || 97 <= c <= 122 || 48 <= c <= 57 || c == 45 || c == 95
  }

  /** The alphabet of section 5 of RFC 4648: A to Z, a to z, 0 to 9, hyphen and underscore. */
  lemma LettersAreTheAlphabet()
    ensures Letter(0) == 'A' as int && Letter(25) == 'Z' as int && Letter(26) == 'a' as int
    ensures Letter(51) == 'z' as int && Letter(52) == '0' as int && Letter(61) == '9' as int
    ensures Letter(62) == '-' as int && Letter(63) == '_' as int
    ensures forall v :: 0 <= v < 61 && v != 25 && v != 51 ==> Letter(v + 1) == Letter(v) + 1
  {
  }

  lemma {:induction false} OnlyLetters(b: Bytes)
    ensures forall i :: 0 <= i < |Encode64(b)| ==> IsLetter(Encode64(b)[i])
    decreases |b|
  {
    if |b| >= 3 {
      OnlyLetters(b[3..]);
    }
  }

  lemma {:induction false} EncodedLength(b: Bytes)
    ensures |Encode64(b)| == |b| / 3 * 4 + (if |b| % 3 == 0 then 0 else |b| % 3 + 1)
    decreases |b|
  {
    if |b| >= 3 {
      EncodedLength(b[3..]);
    }
  }

  /** Reading one letter of the alphabet. */
  lemma ScanLetter(v: int, rest: Str, quad: nat, left: nat, pads: nat)
    requires 0 <= v < 64
    requires quad < 4 && (quad == 1 ==> left < 64) && (quad == 2 ==> left < 16) && (quad == 3 ==> left < 4)
    ensures
      Scan([Letter(v)] + rest, quad, left, pads) ==
      if quad == 0 then Scan(rest, 1, v, 0)
      else if quad == 1 then Cons(left * 4 + v / 16, Scan(rest, 2, v % 16, 0))
      else if quad == 2 then Cons(left * 16 + v / 4, Scan(rest, 3, v % 4, 0))
      else Cons(left * 64 + v, Scan(rest, 0, 0, 0))
  {
  }

  lemma ScanPadding(quad: nat, left: nat)
    requires 2 <= quad < 4 && (quad == 2 ==> left < 16) && (quad == 3 ==> left < 4)
    ensures Scan(Padding(quad), quad, left, 0) == Some([])
  {
  }

  /** A second letter splits into the low bits of one byte and the high bits of the next. */
  lemma SecondLetter(b: Byte, high: int)
    requires 0 <= high < 16
    ensures
      var v := b % 4 * 16 + high;
      0 <= v < 64 && b / 4 * 4 + v / 16 == b && v % 16 == high
  {
  }

  /** The first two letters of a group. */
  lemma ScanTwoLetters(b: Byte, high: int, rest: Str)
    requires 0 <= high < 16
    ensures Scan([Letter(b / 4), Letter(b % 4 * 16 + high)] + rest, 0, 0, 0) == Cons(b, Scan(rest, 2, high, 0))
  {
    hide Letter, Scan;
    var u, v := b / 4, b % 4 * 16 + high;
    SecondLetter(b, high);
    assert [Letter(u), Letter(v)] + rest == [Letter(u)] + ([Letter(v)] + rest);
    ScanLetter(u, [Letter(v)] + rest, 0, 0, 0);
    ScanLetter(v, rest, 1, u, 0);
  }

  /** The third letter of a group, after the first two. */
  lemma ScanThirdLetter(c: Byte, high: int, rest: Str)
    requires 0 <= high < 4
    ensures Scan([Letter(c % 16 * 4 + high)] + rest, 2, c / 16, 0) == Cons(c, Scan(rest, 3, high, 0))
  {
    hide Letter, Scan;
    var v := c % 16 * 4 + high;
    assert v / 4 == c % 16 && v % 4 == high;
    ScanLetter(v, rest, 2, c / 16, 0);
  }

  lemma ScanOne(b: Byte)
    ensures Scan([Letter(b / 4), Letter(b % 4 * 16)] + Padding(2), 0, 0, 0) == Some([b])
  {
    hide Letter, Scan;
    ScanTwoLetters(b, 0, Padding(2));
    ScanPadding(2, 0);
    assert [b] + [] == [b];
  }

  lemma ScanTwo(b: Byte, c: Byte)
    ensures Scan([Letter(b / 4), Letter(b % 4 * 16 + c / 16), Letter(c % 16 * 4)] + Padding(3), 0, 0, 0) == Some([b, c])
  {
    hide Letter, Scan;
    var u, v, w, tail := b / 4, b % 4 * 16 + c / 16, c % 16 * 4, Padding(3);
    assert [Letter(u), Letter(v), Letter(w)] + tail == [Letter(u), Letter(v)] + ([Letter(w)] + tail);
    ScanTwoLetters(b, c / 16, [Letter(w)] + tail);
    ScanThirdLetter(c, 0, tail);
    ScanPadding(3, 0);
    assert [b] + ([c] + []) == [b, c];
  }

  lemma ScanThree(b: Byte, c: Byte, d: Byte, rest: Str)
    ensures Scan(Group(b, c, d) + rest, 0, 0, 0) == Cons(b, Cons(c, Cons(d, Scan(rest, 0, 0, 0))))
  {
    hide Letter, Scan, Cons;
    var u, v, w, x := b / 4, b % 4 * 16 + c / 16, c % 16 * 4 + d / 64, d % 64;
    assert Group(b, c, d) + rest == [Letter(u), Letter(v)] + ([Letter(w)] + ([Letter(x)] + rest));
    ScanTwoLetters(b, c / 16, [Letter(w)] + ([Letter(x)] + rest));
    ScanThirdLetter(c, d / 64, [Letter(x)] + rest);
    ScanLetter(x, rest, 3, d / 64, 0);
    assert d / 64 * 64 + x == d;
  }

  lemma {:induction false} ScanEncoded(b: Bytes)
    ensures Scan(Encode64(b) + Padding(|Encode64(b)|), 0, 0, 0) == Some(b)
    decreases |b|
  {
    hide Letter, Scan;
    EncodedLength(b);
    if b == [] {
      ScanEmpty();
      assert Encode64(b) + Padding(0) == [];
    } else if |b| == 1 {
      ScanOne(b[0]);
      assert Padding(|Encode64(b)|) == Padding(2) && b == [b[0]];
    } else if |b| == 2 {
      ScanTwo(b[0], b[1]);
      assert Padding(|Encode64(b)|) == Padding(3) && b == [b[0], b[1]];
    } else {
      ScanEncoded(b[3..]);
      ScanGroup(b);
    }
  }

  lemma ScanGroup(b: Bytes)
    requires |b| >= 3
    requires Scan(Encode64(b[3..]) + Padding(|Encode64(b[3..])|), 0, 0, 0) == Some(b[3..])
    ensures Scan(Encode64(b) + Padding(|Encode64(b)|), 0, 0, 0) == Some(b)
  {
    assert Encode64(b) == Group(b[0], b[1], b[2]) + Encode64(b[3..]);
    hide Group, Scan, Encode64, Padding, Cons;
    var more := b[3..];
    var text, group := Encode64(more), Group(b[0], b[1], b[2]);
    var rest := text + Padding(|text|);
    ScanThree(b[0], b[1], b[2], rest);
    NextPadding(|text|);
    assert group + text + Padding(4 + |text|) == group + rest;
    ConsThree(b);
  }

  lemma NextPadding(length: nat)
    ensures Padding(4 + length) == Padding(length)
  {
  }

  lemma ConsThree(b: Bytes)
    requires |b| >= 3
    ensures Cons(b[0], Cons(b[1], Cons(b[2], Some(b[3..])))) == Some(b)
  {
    assert b == [b[0]] + ([b[1]] + ([b[2]] + b[3..]));
  }

  lemma ScanEmpty()
    ensures Scan([], 0, 0, 0) == Some([])
  {
  }

  /** Unpadded base64url round-trips for every byte string. */
  lemma Base64RoundTrip(b: Bytes)
    ensures Decode64(Encode64(b)) == Some(b)
    ensures b != [] ==> Encode64(b) != []
  {
    OnlyLetters(b);
    ScanEncoded(b);
    EncodedLength(b);
    assert forall i :: 0 <= i < |Encode64(b)| ==> IsLetter(Encode64(b)[i]) && Encode64(b)[i] < 0x80;
  }
}
