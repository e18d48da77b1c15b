/** JSON text as Python's json module writes and reads it. */
module Json {
  import opened Options
  import opened Ordering
  import opened Decimals

  /** Python strings hold any code point, surrogates included. */
  type CodePoint = c: int | 0 <= c < 0x110000

  type Str = seq<CodePoint>

  datatype Json =
    | JNull
    | JBool(b: bool)
    | JInt(n: int)
    | JFloat(text: Str)
    | JStr(s: Str)
    | JArr(items: seq<Json>)
    | JObj(fields: seq<(Str, Json)>) // a dict, in insertion order

  const QUOTE: CodePoint := 34
  const BACKSLASH: CodePoint := 92
  const SPACE: CodePoint := 32
  const MINUS: CodePoint := 45

  function Ascii(text: string): (r: Str)
    ensures |r| == |text|
    ensures forall i :: 0 <= i < |text| ==> r[i] == text[i] as int
  {
    Codes(text)
  }

  // -------------------------------------------------------------------------------------- strings

  predicate IsHigh(c: int) {
    0xD800 <= c < 0xDC00
  }

  predicate IsLow(c: int) {
    0xDC00 <= c < 0xE000
  }

  function Join(high: int, low: int): (r: CodePoint)
    requires IsHigh(high) && IsLow(low)
    ensures r >= 0x10000
  {
    0x10000 + (high - 0xD800) * 0x400 + (low - 0xDC00)
  }

  function HexDigit(v: int): (r: CodePoint)
    requires 0 <= v < 16
  {
    if v < 10 then 48 + v else 87 + v
  }

  function HexValue(c: int): (r: Option<int>)
    ensures r.Some? ==> 0 <= r.value < 16
  {
    if 48 <= c <= 57 then Some(c - 48)
    else if 97 <= c <= 102 then Some(c - 87)
    else if 65 <= c <= 70 then Some(c - 55)
    else None
  }

  /** The escape \uXXXX of one sixteen-bit unit. */
  function UnicodeEscape(unit: int): (r: Str)
    requires 0 <= unit < 0x10000
    ensures |r| == 6 && r[0] == BACKSLASH && r[1] == 117
  {
    [BACKSLASH, 117, HexDigit(unit / 0x1000), HexDigit(unit / 0x100 % 16), HexDigit(unit / 16 % 16),
     HexDigit(unit % 16)]
  }

  function HighHalf(c: int): (r: int)
    requires 0x10000 <= c < 0x110000
    ensures IsHigh(r)
  {
    0xD800 + (c - 0x10000) / 0x400
  }

  function LowHalf(c: int): (r: int)
    requires 0x10000 <= c < 0x110000
    ensures IsLow(r)
  {
    0xDC00 + (c - 0x10000) % 0x400
  }

  function ShortEscape(c: int): (r: Option<CodePoint>) {
    if c == 34 then Some(34)
    else if c == 92 then Some(92)
    else if c == 8 then Some(98)
    else if c == 12 then Some(102)
    else if c == 10 then Some(110)
    else if c == 13 then Some(114)
    else if c == 9 then Some(116)
    else None
  }

  function EscapeOne(ascii: bool, c: CodePoint): (r: Str)
    ensures r != [] && r[0] != QUOTE
  {
    if ShortEscape(c).Some? then [BACKSLASH, ShortEscape(c).value]
    else if c < 0x20 || (ascii && 0x7F <= c < 0x10000) then UnicodeEscape(c)
    else if ascii && c >= 0x10000 then UnicodeEscape(HighHalf(c)) + UnicodeEscape(LowHalf(c))
    else [c]
  }

  function Escape(ascii: bool, s: Str): (r: Str) {
    if s == [] then [] else EscapeOne(ascii, s[0]) + Escape(ascii, s[1..])
  }

  function Hex4(s: Str): (r: Option<int>)
    ensures r.Some? ==> 0 <= r.value < 0x10000
  {
    if |s| < 4 then None
    else
      var a, b, c, d := HexValue(s[0]), HexValue(s[1]), HexValue(s[2]), HexValue(s[3]);
      if a.None? || b.None? || c.None? || d.None? then None
      else Some(a.value * 0x1000 + b.value * 0x100 + c.value * 16 + d.value)
  }

  function UnescapeShort(c: int): (r: Option<CodePoint>) {
    if c == 34 || c == 92 || c == 47 then Some(c)
    else if c == 98 then Some(8)
    else if c == 102 then Some(12)
    else if c == 110 then Some(10)
    else if c == 114 then Some(13)
    else if c == 116 then Some(9)
    else None
  }

  /** The sixteen-bit unit written as \uXXXX at the start of s. */
  function UnitAt(s: Str): (r: Option<int>)
    ensures r.Some? ==> |s| >= 6 && 0 <= r.value < 0x10000
  {
    if |s| >= 6 && s[0] == BACKSLASH && s[1] == 117 then Hex4(s[2..]) else None
  }

  /** Reads one character; a high surrogate escape directly followed by a low one is a single character. */
  function ReadChar(s: Str): (r: Option<(CodePoint, Str)>)
    requires s != []
    ensures r.Some? ==> |r.value.1| < |s|
  {
    if s[0] != BACKSLASH then
      if s[0] < 0x20 then None else Some((s[0], s[1..]))
    else if |s| < 2 then None
    else if s[1] != 117 then
      var c := UnescapeShort(s[1]);
      if c.None? then None else Some((c.value, s[2..]))
    else
      var unit := UnitAt(s);
      if unit.None? then None
      else
        var next := UnitAt(s[6..]);
        if IsHigh(unit.value) && next.Some? && IsLow(next.value) then Some((Join(unit.value, next.value), s[12..]))
        else Some((unit.value, s[6..]))
  }

  /** Reads the rest of a string, up to and including its closing quote. */
  function ReadString(s: Str): (r: Option<(Str, Str)>)
    ensures r.Some? ==> |r.value.1| < |s|
    decreases |s|
  {
    if s == [] then None
    else if s[0] == QUOTE then Some(([], s[1..]))
    else
      var c := ReadChar(s);
      if c.None? then None
      else
        var rest := ReadString(c.value.1);
        if rest.None? then None else Some(([c.value.0] + rest.value.0, rest.value.1))
  }

  /** Joins each high surrogate directly followed by a low one. */
  function Merge(s: Str): (r: Str)
    ensures |r| <= |s|
    decreases |s|
  {
    if |s| >= 2 && IsHigh(s[0]) && IsLow(s[1]) then [Join(s[0], s[1])] + Merge(s[2..])
    else if s == [] then []
    else [s[0]] + Merge(s[1..])
  }

  ghost predicate HasSplitPair(s: Str) {
    exists i :: 0 <= i < |s| - 1 && IsHigh(s[i]) && IsLow(s[i + 1])
  }

  // -------------------------------------------------------------------------------------- printing

  /** ensure_ascii, and whether a space follows each separator. */
  datatype Style = Style(ascii: bool, spaced: bool)

  function Separator(style: Style, c: CodePoint): (r: Str)
    ensures r != [] && r[0] == c && r[1..] == if style.spaced then [SPACE] else []
  {
    if style.spaced then [c, SPACE] else [c]
  }

  function PrintStr(style: Style, s: Str): (r: Str)
    ensures r != [] && r[0] == QUOTE
  {
    [QUOTE] + Escape(style.ascii, s) + [QUOTE]
  }

  function PrintInt(n: int): (r: Str)
    ensures r != []
  {
    if n < 0 then [MINUS] + Digits(-n) else Digits(n)
  }

  function Print(style: Style, j: Json): (r: Str)
    decreases j, 0
  {
    match j
    case JNull => Ascii("null")
    case JBool(b) => if b then Ascii("true") else Ascii("false")
    case JInt(n) => PrintInt(n)
    case JFloat(text) => text
    case JStr(s) => PrintStr(style, s)
    case JArr(items) => Ascii("[") + PrintItems(style, items) + Ascii("]")
    case JObj(fields) => Ascii("{") + PrintFields(style, fields) + Ascii("}")
  }

  function PrintItems(style: Style, items: seq<Json>): (r: Str)
    decreases items, 1
  {
    if items == [] then []
    else if |items| == 1 then Print(style, items[0])
    else Print(style, items[0]) + Separator(style, 44) + PrintItems(style, items[1..])
  }

  function PrintField(style: Style, field: (Str, Json)): (r: Str)
    ensures r != [] && r[0] == QUOTE
    decreases field, 1
  {
    PrintStr(style, field.0) + Separator(style, 58) + Print(style, field.1)
  }

  function PrintFields(style: Style, fields: seq<(Str, Json)>): (r: Str)
    decreases fields, 2
  {
    if fields == [] then []
    else if |fields| == 1 then PrintField(style, fields[0])
    else PrintField(style, fields[0]) + Separator(style, 44) + PrintFields(style, fields[1..])
  }

  // --------------------------------------------------------------------------------------- parsing

  predicate IsWhitespace(c: int) {
    c == 32 || c == 9 || c == 10 || c == 13
  }

  function Skip(s: Str): (r: Str)
    ensures |r| <= |s|
  {
    if s != [] && IsWhitespace(s[0]) then Skip(s[1..]) else s
  }

  /** The digits at the start of s. */
  function DigitRun(s: Str): (r: nat)
    ensures r <= |s|
    ensures forall i :: 0 <= i < r ==> IsDigit(s[i])
    ensures r < |s| ==> !IsDigit(s[r])
  {
    if s == [] || !IsDigit(s[0]) then 0 else 1 + DigitRun(s[1..])
  }

  /** The length of the integer part: a lone zero, or a run of digits. */
  function IntDigits(s: Str): (r: nat)
    ensures r <= |s|
  {
    if s != [] && s[0] == 48 then 1 else DigitRun(s)
  }

  function Fraction(s: Str): (r: nat)
    ensures r <= |s|
  {
    if |s| > 0 && s[0] == 46 && DigitRun(s[1..]) > 0 then 1 + DigitRun(s[1..]) else 0
  }

  function Exponent(s: Str): (r: nat)
    ensures r <= |s|
  {
    var sign := if |s| > 1 && (s[1] == 43 || s[1] == 45) then 2 else 1;
    if |s| > 0 && (s[0] == 101 || s[0] == 69) && DigitRun(s[sign..]) > 0 then sign + DigitRun(s[sign..]) else 0
  }

  /** The length of the fraction and exponent at the start of s; zero when there is neither. */
  function FloatTail(s: Str): (r: nat)
    ensures r <= |s|
  {
    Fraction(s) + Exponent(s[Fraction(s)..])
  }

  function ReadNumber(s: Str): (r: Option<(Json, Str)>)
    ensures r.Some? ==> |r.value.1| < |s|
  {
    var sign := if s != [] && s[0] == MINUS then 1 else 0;
    var body := s[sign..];
    var digits := IntDigits(body);
    if digits == 0 then None
    else
      var tail := FloatTail(body[digits..]);
      var length := sign + digits + tail;
      if tail > 0 then Some((JFloat(s[..length]), s[length..]))
      else
        var n := Value(body[..digits]);
        Some((JInt(if sign == 1 then -n else n), s[length..]))
  }

  predicate StartsWith(s: Str, prefix: string) {
    |prefix| <= |s| && s[..|prefix|] == Ascii(prefix)
  }

  function ReadLiteral(s: Str): (r: Option<(Json, Str)>)
    ensures r.Some? ==> |r.value.1| < |s|
  {
    if StartsWith(s, "null") then Some((JNull, s[4..]))
    else if StartsWith(s, "true") then Some((JBool(true), s[4..]))
    else if StartsWith(s, "false") then Some((JBool(false), s[5..]))
    else if StartsWith(s, "NaN") then Some((JFloat(s[..3]), s[3..]))
    else if StartsWith(s, "Infinity") then Some((JFloat(s[..8]), s[8..]))
    else if StartsWith(s, "-Infinity") then Some((JFloat(s[..9]), s[9..]))
    else None
  }

  /** dict assignment: a repeated key keeps its place and takes the new value. */
  function Put(fields: seq<(Str, Json)>, key: Str, value: Json): (r: seq<(Str, Json)>) {
    if fields == [] then [(key, value)]
    else if fields[0].0 == key then [(key, value)] + fields[1..]
    else [fields[0]] + Put(fields[1..], key, value)
  }

  function Get(fields: seq<(Str, Json)>, key: Str): (r: Option<Json>) {
    if fields == [] then None
    else if fields[0].0 == key then Some(fields[0].1)
    else Get(fields[1..], key)
  }

  function ReadValue(s: Str): (r: Option<(Json, Str)>)
    ensures r.Some? ==> |r.value.1| < |s|
    decreases |s|, 0
  {
    if s == [] then None
    else if s[0] == QUOTE then
      var text := ReadString(s[1..]);
      if text.None? then None else Some((JStr(text.value.0), text.value.1))
    else if s[0] == 91 then
      var t := Skip(s[1..]);
      if t != [] && t[0] == 93 then Some((JArr([]), t[1..]))
      else
        var items := ReadItems(t);
        if items.None? then None else Some((JArr(items.value.0), items.value.1))
    else if s[0] == 123 then
      var t := Skip(s[1..]);
      if t != [] && t[0] == 125 then Some((JObj([]), t[1..]))
      else
        var fields := ReadFields([], t);
        if fields.None? then None else Some((JObj(fields.value.0), fields.value.1))
    else
      var number := ReadNumber(s);
      if number.Some? then number else ReadLiteral(s)
  }

  /** The items of an array from one of them on, and the closing bracket. */
  function ReadItems(s: Str): (r: Option<(seq<Json>, Str)>)
    ensures r.Some? ==> |r.value.1| < |s|
    decreases |s|, 1
  {
    var item := ReadValue(s);
    if item.None? then None
    else
      var t := Skip(item.value.1);
      if t == [] then None
      else if t[0] == 93 then Some(([item.value.0], t[1..]))
      else if t[0] != 44 then None
      else
        var rest := ReadItems(Skip(t[1..]));
        if rest.None? then None else Some(([item.value.0] + rest.value.0, rest.value.1))
  }

  /** One key, colon and value. */
  function ReadField(s: Str): (r: Option<((Str, Json), Str)>)
    ensures r.Some? ==> |r.value.1| < |s|
    decreases |s|, 1
  {
    if s == [] || s[0] != QUOTE then None
    else
      var key := ReadString(s[1..]);
      if key.None? then None
      else
        var t := Skip(key.value.1);
        if t == [] || t[0] != 58 then None
        else
          var value := ReadValue(Skip(t[1..]));
          if value.None? then None else Some(((key.value.0, value.value.0), value.value.1))
  }

  /** The fields of an object from one of them on, added to those read so far, and the closing brace. */
  function ReadFields(sofar: seq<(Str, Json)>, s: Str): (r: Option<(seq<(Str, Json)>, Str)>)
    ensures r.Some? ==> |r.value.1| < |s|
    decreases |s|, 2
  {
    var field := ReadField(s);
    if field.None? then None
    else
      var fields := Put(sofar, field.value.0.0, field.value.0.1);
      var t := Skip(field.value.1);
      if t == [] then None
      else if t[0] == 125 then Some((fields, t[1..]))
      else if t[0] != 44 then None
      else ReadFields(fields, Skip(t[1..]))
  }

  function Loads(s: Str): (r: Option<Json>) {
    var value := ReadValue(Skip(s));
    if value.Some? && Skip(value.value.1) == [] then Some(value.value.0) else None
  }
}
