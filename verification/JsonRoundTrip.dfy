/** What reading back printed JSON yields, and what printed JSON determines. */
module JsonRoundTrip {
  import opened Options
  import opened Decimals
  import opened Json

  // --------------------------------------------------------------------------------------- strings

  lemma HexParts(unit: int)
    requires 0 <= unit < 0x10000
    ensures unit == unit / 0x1000 * 0x1000 + unit / 0x100 % 16 * 0x100 + unit / 16 % 16 * 16 + unit % 16
  {
    var p, q, r := unit / 16, unit / 16 / 16, unit / 16 / 16 / 16;
    assert unit / 0x100 == q && unit / 0x1000 == r;
    assert unit == p * 16 + unit % 16 && p == q * 16 + p % 16 && q == r * 16 + q % 16;
  }

  lemma Hex4Of(a: int, b: int, c: int, d: int, tail: Str)
    requires 0 <= a < 16 && 0 <= b < 16 && 0 <= c < 16 && 0 <= d < 16
    ensures Hex4([HexDigit(a), HexDigit(b), HexDigit(c), HexDigit(d)] + tail)
         == Some(a * 0x1000 + b * 0x100 + c * 16 + d)
  {
  }

  lemma UnitRoundTrip(unit: int, tail: Str)
    requires 0 <= unit < 0x10000
    ensures UnitAt(UnicodeEscape(unit) + tail) == Some(unit)
  {
    hide Hex4, HexDigit;
    var a, b, c, d := unit / 0x1000, unit / 0x100 % 16, unit / 16 % 16, unit % 16;
    HexParts(unit);
    Hex4Of(a, b, c, d, tail);
    assert (UnicodeEscape(unit) + tail)[2..] == [HexDigit(a), HexDigit(b), HexDigit(c), HexDigit(d)] + tail;
  }

  lemma HalvesJoin(c: int)
    requires 0x10000 <= c < 0x110000
    ensures Join(HighHalf(c), LowHalf(c)) == c
  {
  }

  /** The next character of the text is not the escape of a low surrogate. */
  ghost predicate NoLowNext(tail: Str) {
    UnitAt(tail).None? || !IsLow(UnitAt(tail).value)
  }

  lemma ReadUnit(unit: int, tail: Str)
    requires 0 <= unit < 0x10000 && (IsHigh(unit) ==> NoLowNext(tail))
    ensures ReadChar(UnicodeEscape(unit) + tail) == Some((unit, tail))
  {
    var s := UnicodeEscape(unit) + tail;
    UnitRoundTrip(unit, tail);
    assert s[6..] == tail;
  }

  lemma ReadPair(high: int, low: int, tail: Str)
    requires IsHigh(high) && IsLow(low)
    ensures ReadChar(UnicodeEscape(high) + (UnicodeEscape(low) + tail)) == Some((Join(high, low), tail))
  {
    var s := UnicodeEscape(high) + (UnicodeEscape(low) + tail);
    UnitRoundTrip(high, UnicodeEscape(low) + tail);
    UnitRoundTrip(low, tail);
    assert s[6..] == UnicodeEscape(low) + tail;
    assert s[12..] == tail;
  }

  /** One escaped character reads back as itself. */
  lemma ReadEscaped(ascii: bool, c: CodePoint, tail: Str)
    requires ascii && IsHigh(c) ==> NoLowNext(tail)
    ensures ReadChar(EscapeOne(ascii, c) + tail) == Some((c, tail))
  {
    hide UnicodeEscape, UnitAt;
    var s := EscapeOne(ascii, c) + tail;
    if ShortEscape(c).Some? {
      assert s[2..] == tail;
    } else if c < 0x20 || (ascii && 0x7F <= c < 0x10000) {
      ReadUnit(c, tail);
    } else if ascii && c >= 0x10000 {
      ReadPair(HighHalf(c), LowHalf(c), tail);
      HalvesJoin(c);
      assert s == UnicodeEscape(HighHalf(c)) + (UnicodeEscape(LowHalf(c)) + tail);
    } else {
      assert s[1..] == tail;
    }
  }

  lemma PlainIsNoUnit(ascii: bool, c: CodePoint, rest: Str)
    requires ShortEscape(c).Some? || |EscapeOne(ascii, c)| == 1
    ensures UnitAt(EscapeOne(ascii, c) + rest).None?
  {
  }

  /** An escaped character starts with the escape of a low surrogate only if it is one. */
  lemma EscapedIsNotLow(c: CodePoint, rest: Str)
    requires !IsLow(c)
    ensures NoLowNext(EscapeOne(true, c) + rest)
  {
    hide UnicodeEscape, UnitAt;
    if ShortEscape(c).Some? {
      PlainIsNoUnit(true, c, rest);
    } else if c < 0x20 || 0x7F <= c < 0x10000 {
      UnitRoundTrip(c, rest);
    } else if c >= 0x10000 {
      UnitRoundTrip(HighHalf(c), UnicodeEscape(LowHalf(c)) + rest);
      assert EscapeOne(true, c) + rest == UnicodeEscape(HighHalf(c)) + (UnicodeEscape(LowHalf(c)) + rest);
    } else {
      PlainIsNoUnit(true, c, rest);
    }
  }

  /** Printed text starts with the escape of a low surrogate only if its first character is one. */
  lemma LowNextMeansLow(s: Str, tail: Str)
    requires s == [] || !IsLow(s[0])
    requires tail != [] && tail[0] == QUOTE
    ensures NoLowNext(Escape(true, s) + tail)
  {
    hide EscapeOne, UnitAt;
    if s == [] {
      QuoteIsNoUnit(tail);
      assert Escape(true, s) + tail == tail;
    } else {
      var rest := Escape(true, s[1..]) + tail;
      assert Escape(true, s) + tail == EscapeOne(true, s[0]) + rest;
      EscapedIsNotLow(s[0], rest);
    }
  }

  lemma QuoteIsNoUnit(tail: Str)
    requires tail != [] && tail[0] == QUOTE
    ensures UnitAt(tail).None?
  {
  }

  /** What a reader sees of a printed string: ensure_ascii joins split surrogate pairs. */
  function Seen(style: Style, s: Str): (r: Str) {
    if style.ascii then Merge(s) else s
  }

  lemma {:induction false} ReadEscapedString(style: Style, s: Str, tail: Str)
    ensures ReadString(Escape(style.ascii, s) + [QUOTE] + tail) == Some((Seen(style, s), tail))
    decreases |s|
  {
    hide ReadChar, EscapeOne;
    var text := Escape(style.ascii, s) + [QUOTE] + tail;
    if s == [] {
      assert text == [QUOTE] + tail;
      assert text[1..] == tail;
    } else if style.ascii && |s| >= 2 && IsHigh(s[0]) && IsLow(s[1]) {
      var rest := Escape(true, s[2..]) + [QUOTE] + tail;
      SplitPairText(s, tail);
      ReadPair(s[0], s[1], rest);
      ReadEscapedString(style, s[2..], tail);
    } else {
      var rest := Escape(style.ascii, s[1..]) + [QUOTE] + tail;
      assert text == EscapeOne(style.ascii, s[0]) + rest;
      if style.ascii {
        if |s| < 2 || !IsLow(s[1]) {
          LowNextMeansLow(s[1..], [QUOTE] + tail);
          assert rest == Escape(true, s[1..]) + ([QUOTE] + tail);
        }
      }
      EscapedStart(style.ascii, s[0]);
      assert text[0] == EscapeOne(style.ascii, s[0])[0];
      assert s == [s[0]] + s[1..];
      ReadEscaped(style.ascii, s[0], rest);
      ReadEscapedString(style, s[1..], tail);
    }
  }

  lemma EscapedStart(ascii: bool, c: CodePoint)
    ensures EscapeOne(ascii, c) != [] && EscapeOne(ascii, c)[0] != QUOTE
  {
  }

  lemma SplitPairText(s: Str, tail: Str)
    requires |s| >= 2 && IsHigh(s[0]) && IsLow(s[1])
    ensures Escape(true, s) + [QUOTE] + tail ==
            UnicodeEscape(s[0]) + (UnicodeEscape(s[1]) + (Escape(true, s[2..]) + [QUOTE] + tail))
  {
  }

  /** A string survives ensure_ascii exactly when it holds no split surrogate pair. */
  lemma {:induction false} MergeIsIdentity(s: Str)
    ensures Merge(s) == s <==> !HasSplitPair(s)
    ensures HasSplitPair(s) ==> |Merge(s)| < |s|
    decreases |s|
  {
    if |s| >= 2 && IsHigh(s[0]) && IsLow(s[1]) {
      assert HasSplitPair(s);
    } else if s != [] {
      MergeIsIdentity(s[1..]);
      assert s == [s[0]] + s[1..];
      if HasSplitPair(s[1..]) {
        var i :| 0 <= i < |s[1..]| - 1 && IsHigh(s[1..][i]) && IsLow(s[1..][i + 1]);
        assert IsHigh(s[i + 1]) && IsLow(s[i + 1 + 1]);
      }
      if HasSplitPair(s) {
        var i :| 0 <= i < |s| - 1 && IsHigh(s[i]) && IsLow(s[i + 1]);
        assert IsHigh(s[1..][i - 1]) && IsLow(s[1..][i - 1 + 1]);
      }
    }
  }

  // --------------------------------------------------------------------------------------- numbers

  /** Text after a printed value: nothing, or a separator or closing bracket. */
  predicate Delimited(rest: Str) {
    rest == [] || rest[0] == 44 || rest[0] == 93 || rest[0] == 125
  }

  lemma {:induction false} DigitRunOf(digits: Str, rest: Str)
    requires forall i :: 0 <= i < |digits| ==> IsDigit(digits[i])
    requires rest == [] || !IsDigit(rest[0])
    ensures DigitRun(digits + rest) == |digits|
  {
    if digits != [] {
      DigitRunOf(digits[1..], rest);
      assert (digits + rest)[1..] == digits[1..] + rest;
    } else {
      assert digits + rest == rest;
    }
  }

  lemma NoFloatTail(rest: Str)
    requires Delimited(rest)
    ensures FloatTail(rest) == 0
  {
  }

  lemma ReadDigits(n: nat, rest: Str)
    requires Delimited(rest)
    ensures
      var body: Str := Digits(n) + rest;
      var digits := IntDigits(body);
      digits == |Digits(n)| && body[..digits] == Digits(n) && body[digits..] == rest && IsDigit(body[0])
  {
    DigitRunOf(Digits(n), rest);
    var body: Str := Digits(n) + rest;
    assert body[0] == Digits(n)[0];
    assert body[..|Digits(n)|] == Digits(n) && body[|Digits(n)|..] == rest;
  }

  lemma ReadPrintedInt(n: int, rest: Str)
    requires Delimited(rest)
    ensures ReadNumber(PrintInt(n) + rest) == Some((JInt(n), rest))
  {
    hide Digits, IntDigits, FloatTail, Value;
    var magnitude := if n < 0 then -n else n;
    var s := PrintInt(n) + rest;
    var body: Str := Digits(magnitude) + rest;
    ReadDigits(magnitude, rest);
    NoFloatTail(rest);
    ValueOfDigits(magnitude);
    if n < 0 {
      assert s[1..] == body;
      assert s[1 + |Digits(magnitude)|..] == rest;
    } else {
      assert s == body;
    }
  }

  /** A numeral that reads as a float, or one of the three names of special floats. */
  predicate FloatText(text: Str) {
    ReadNumber(text) == Some((JFloat(text), [])) || SpecialFloat(text)
  }

  predicate SpecialFloat(text: Str) {
    text == Ascii("NaN") || text == Ascii("Infinity") || text == Ascii("-Infinity")
  }

  lemma {:induction false} DigitRunBefore(s: Str, rest: Str)
    requires Delimited(rest)
    ensures DigitRun(s + rest) == DigitRun(s)
  {
    if s == [] {
      assert s + rest == rest;
    } else if IsDigit(s[0]) {
      DigitRunBefore(s[1..], rest);
      assert (s + rest)[1..] == s[1..] + rest;
    }
  }

  lemma FractionBefore(s: Str, rest: Str)
    requires Delimited(rest)
    ensures Fraction(s + rest) == Fraction(s)
  {
    if s == [] {
      assert s + rest == rest;
    } else {
      DigitRunBefore(s[1..], rest);
      assert (s + rest)[1..] == s[1..] + rest;
    }
  }

  lemma ExponentBefore(t: Str, rest: Str)
    requires Delimited(rest)
    ensures Exponent(t + rest) == Exponent(t)
  {
    hide DigitRun;
    if t == [] {
      assert t + rest == rest;
    } else if t[0] == 101 || t[0] == 69 {
      assert (t + rest)[0] == t[0];
      ExponentDigits(t, rest);
    } else {
      assert (t + rest)[0] == t[0];
    }
  }

  lemma ExponentDigits(t: Str, rest: Str)
    requires t != [] && Delimited(rest)
    ensures
      var s := t + rest;
      var sign := if |t| > 1 && (t[1] == 43 || t[1] == 45) then 2 else 1;
      && sign == (if |s| > 1 && (s[1] == 43 || s[1] == 45) then 2 else 1)
      && DigitRun(s[sign..]) == DigitRun(t[sign..])
  {
    hide DigitRun;
    var sign := if |t| > 1 && (t[1] == 43 || t[1] == 45) then 2 else 1;
    DigitRunBefore(t[sign..], rest);
    assert (t + rest)[sign..] == t[sign..] + rest;
  }

  lemma FloatTailBefore(s: Str, rest: Str)
    requires Delimited(rest)
    ensures FloatTail(s + rest) == FloatTail(s)
  {
    hide Fraction, Exponent;
    FractionBefore(s, rest);
    var k := Fraction(s);
    ExponentBefore(s[k..], rest);
    assert (s + rest)[k..] == s[k..] + rest;
  }

  lemma IntDigitsBefore(s: Str, rest: Str)
    requires Delimited(rest)
    ensures IntDigits(s + rest) == IntDigits(s)
  {
    hide DigitRun;
    DigitRunBefore(s, rest);
    assert s == [] ==> s + rest == rest;
  }

  /** A number is read the same way before a separator as alone. */
  lemma ReadNumberBefore(s: Str, rest: Str)
    requires Delimited(rest) && ReadNumber(s).Some?
    ensures ReadNumber(s + rest) == Some((ReadNumber(s).value.0, ReadNumber(s).value.1 + rest))
  {
    hide FloatTail, IntDigits, Value;
    var sign := if s != [] && s[0] == MINUS then 1 else 0;
    var body, t := s[sign..], s + rest;
    assert t[sign..] == body + rest;
    IntDigitsBefore(body, rest);
    var digits := IntDigits(body);
    assert (body + rest)[..digits] == body[..digits];
    assert (body + rest)[digits..] == body[digits..] + rest;
    FloatTailBefore(body[digits..], rest);
    var length := sign + digits + FloatTail(body[digits..]);
    assert t[..length] == s[..length] && t[length..] == s[length..] + rest;
  }

  // ---------------------------------------------------------------------------------------- values

  /** Floats are numerals, and no dict has two keys that look alike to the reader. */
  ghost predicate Printable(style: Style, j: Json) {
    match j
    case JFloat(text) => FloatText(text)
    case JArr(items) => forall i :: 0 <= i < |items| ==> Printable(style, items[i])
    case JObj(fields) =>
      && (forall i :: 0 <= i < |fields| ==> Printable(style, fields[i].1))
      && DistinctKeys(style, fields)
    case _ => true
  }

  /** The value a reader gets from the printed text of j. */
  ghost function Received(style: Style, j: Json): Json
    decreases j, 0
  {
    match j
    case JStr(s) => JStr(Seen(style, s))
    case JArr(items) => JArr(ReceivedItems(style, items))
    case JObj(fields) => JObj(ReceivedFields(style, fields))
    case _ => j
  }

  ghost function ReceivedItems(style: Style, items: seq<Json>): (r: seq<Json>)
    ensures |r| == |items|
    decreases items, 1
  {
    if items == [] then [] else [Received(style, items[0])] + ReceivedItems(style, items[1..])
  }

  ghost function ReceivedField(style: Style, field: (Str, Json)): (r: (Str, Json))
    decreases field, 1
  {
    (Seen(style, field.0), Received(style, field.1))
  }

  ghost function ReceivedFields(style: Style, fields: seq<(Str, Json)>): (r: seq<(Str, Json)>)
    ensures |r| == |fields|
    decreases fields, 2
  {
    if fields == [] then [] else [ReceivedField(style, fields[0])] + ReceivedFields(style, fields[1..])
  }

  lemma {:induction false} PutNew(fields: seq<(Str, Json)>, key: Str, value: Json)
    requires forall i :: 0 <= i < |fields| ==> fields[i].0 != key
    ensures Put(fields, key, value) == fields + [(key, value)]
  {
    if fields != [] {
      PutNew(fields[1..], key, value);
      assert fields == [fields[0]] + fields[1..];
    }
  }

  lemma {:induction false} GetPut(fields: seq<(Str, Json)>, key: Str, value: Json, k: Str)
    ensures Get(Put(fields, key, value), k) == if k == key then Some(value) else Get(fields, k)
  {
    if fields != [] && fields[0].0 != key {
      GetPut(fields[1..], key, value, k);
    }
  }

  /** Printed values start with a character that is neither white space nor a closing bracket. */
  predicate ValueStart(s: Str) {
    s != [] && !IsWhitespace(s[0]) && s[0] != 93 && s[0] != 125
  }

  lemma PrintedStart(style: Style, j: Json, rest: Str)
    requires Printable(style, j)
    ensures ValueStart(Print(style, j) + rest)
  {
    hide ReadNumber;
    match j
    case JNull =>
    case JBool(_) =>
    case JInt(n) =>
      assert n < 0 ==> PrintInt(n)[0] == MINUS;
    case JFloat(text) =>
      FloatStart(text);
      assert (text + rest)[0] == text[0];
    case JStr(_) =>
    case JArr(_) =>
    case JObj(_) =>
  }

  lemma SkipSeparator(style: Style, c: CodePoint, rest: Str)
    requires !IsWhitespace(c) && (rest == [] || !IsWhitespace(rest[0]))
    ensures
      var s := Separator(style, c) + rest;
      Skip(s) == s && s[0] == c && Skip(s[1..]) == rest
  {
  }

  lemma ReadPrintedLiteral(j: Json, style: Style, rest: Str)
    requires j.JNull? || j.JBool?
    ensures ReadValue(Print(style, j) + rest) == Some((j, rest))
  {
    hide ReadNumber, ReadLiteral, Ascii;
    var text := Print(style, j);
    FirstLetters();
    NoNumber(text + rest);
    ReadWord(text, rest);
    assert (text + rest)[0] == text[0];
  }

  lemma FirstLetters()
    ensures |Ascii("null")| == 4 && |Ascii("true")| == 4 && |Ascii("false")| == 5
    ensures Ascii("null")[0] == 110 && Ascii("true")[0] == 116 && Ascii("false")[0] == 102
  {
  }

  lemma NoNumber(s: Str)
    requires s != [] && s[0] >= 97
    ensures ReadNumber(s).None?
  {
  }

  lemma ReadWord(word: Str, rest: Str)
    requires word == Ascii("null") || word == Ascii("true") || word == Ascii("false")
    ensures ReadLiteral(word + rest) ==
            Some((if word == Ascii("null") then JNull else JBool(word == Ascii("true")), rest))
  {
    var s := word + rest;
    FirstLetters();
    assert s[..|word|] == word && s[|word|..] == rest;
    assert s[0] == word[0];
    assert s[..4][0] == word[0];
  }

  lemma ReadPrintedStr(style: Style, text: Str, rest: Str)
    ensures ReadValue(PrintStr(style, text) + rest) == Some((JStr(Seen(style, text)), rest))
    ensures ReadString((PrintStr(style, text) + rest)[1..]) == Some((Seen(style, text), rest))
  {
    var s := PrintStr(style, text) + rest;
    ReadEscapedString(style, text, rest);
    assert s[1..] == Escape(style.ascii, text) + [QUOTE] + rest;
  }

  lemma ReadPrintedNumber(style: Style, n: int, rest: Str)
    requires Delimited(rest)
    ensures ReadValue(Print(style, JInt(n)) + rest) == Some((JInt(n), rest))
  {
    hide ReadNumber, ReadLiteral, Digits;
    ReadPrintedInt(n, rest);
    IntStart(n);
    assert (PrintInt(n) + rest)[0] == PrintInt(n)[0];
  }

  lemma ReadNamedFloat(text: Str, rest: Str)
    requires SpecialFloat(text)
    ensures ReadNumber(text + rest).None? && ReadLiteral(text + rest) == Some((JFloat(text), rest))
    ensures text[0] == 78 || text[0] == 73 || text[0] == 45
  {
    var s := text + rest;
    assert s[..|text|] == text && s[|text|..] == rest;
    assert Ascii("null")[0] == 110 && Ascii("true")[0] == 116 && Ascii("false")[0] == 102;
    assert Ascii("NaN")[0] == 78 && Ascii("Infinity")[0] == 73 && Ascii("-Infinity")[0] == 45;
    assert Ascii("-Infinity")[1] == 73;
    assert s[0] == text[0] && s[1] == text[1];
  }

  lemma FloatStart(text: Str)
    requires FloatText(text)
    ensures text != [] && (IsDigit(text[0]) || text[0] == 78 || text[0] == 73 || text[0] == 45)
  {
  }

  lemma ReadPrintedFloat(style: Style, text: Str, rest: Str)
    requires FloatText(text) && Delimited(rest)
    ensures ReadValue(Print(style, JFloat(text)) + rest) == Some((JFloat(text), rest))
  {
    hide ReadNumber, ReadLiteral, FloatText;
    var s := text + rest;
    FloatStart(text);
    assert s[0] == text[0];
    FloatKinds(text);
    if SpecialFloat(text) {
      ReadNamedFloat(text, rest);
    } else {
      ReadNumberBefore(text, rest);
      assert [] + rest == rest;
    }
  }

  lemma FloatKinds(text: Str)
    requires FloatText(text)
    ensures SpecialFloat(text) || ReadNumber(text) == Some((JFloat(text), []))
  {
  }

  lemma ReadEmpty(open: CodePoint, rest: Str)
    requires open == 91 || open == 123
    ensures ReadValue([open, open + 2] + rest) == Some((if open == 91 then JArr([]) else JObj([]), rest))
  {
  }

  lemma ReadOpened(open: CodePoint, inside: Str)
    requires (open == 91 || open == 123) && ValueStart(inside)
    ensures
      ReadValue([open] + inside) ==
      if open == 91 then
        var items := ReadItems(inside);
        if items.None? then None else Some((JArr(items.value.0), items.value.1))
      else
        var fields := ReadFields([], inside);
        if fields.None? then None else Some((JObj(fields.value.0), fields.value.1))
  {
  }

  /** Reading a printed value yields what was printed and leaves the rest of the text. */
  lemma {:induction false} ReadPrinted(style: Style, j: Json, rest: Str)
    requires Printable(style, j) && Delimited(rest)
    ensures ReadValue(Print(style, j) + rest) == Some((Received(style, j), rest))
    decreases j, 0
  {
    hide ReadValue, ReceivedItems, ReceivedFields, FloatText, PrintInt, PrintStr, PrintItems, PrintFields, Seen;
    match j
    case JNull => ReadPrintedLiteral(j, style, rest);
    case JBool(_) => ReadPrintedLiteral(j, style, rest);
    case JInt(n) => ReadPrintedNumber(style, n, rest);
    case JFloat(text) => ReadPrintedFloat(style, text, rest);
    case JStr(text) => ReadPrintedStr(style, text, rest);
    case JArr(items) => ReadPrintedArr(style, items, rest);
    case JObj(fields) => ReadPrintedObj(style, fields, rest);
  }

  lemma {:induction false} ReadPrintedArr(style: Style, items: seq<Json>, rest: Str)
    requires forall i :: 0 <= i < |items| ==> Printable(style, items[i])
    ensures ReadValue(Print(style, JArr(items)) + rest) == Some((JArr(ReceivedItems(style, items)), rest))
    decreases items, 2
  {
    hide ReadValue, ValueStart, ReadItems, Printable, Received;
    var s := Print(style, JArr(items)) + rest;
    if items == [] {
      ReadEmpty(91, rest);
      assert s == [91, 93] + rest;
    } else {
      var inside := PrintItems(style, items) + Ascii("]") + rest;
      ReadPrintedItems(style, items, rest);
      ReadOpened(91, inside);
      assert s == [91] + inside;
    }
  }

  lemma {:induction false} ReadPrintedObj(style: Style, fields: seq<(Str, Json)>, rest: Str)
    requires forall i :: 0 <= i < |fields| ==> Printable(style, fields[i].1)
    requires DistinctKeys(style, fields)
    ensures ReadValue(Print(style, JObj(fields)) + rest) == Some((JObj(ReceivedFields(style, fields)), rest))
    decreases fields, 3
  {
    hide ReadValue, ValueStart, ReadFields, Printable, ReceivedField, DistinctKeys, PrintField;
    var s := Print(style, JObj(fields)) + rest;
    assert s == Ascii("{") + PrintFields(style, fields) + Ascii("}") + rest;
    hide Print;
    if fields == [] {
      ReadEmpty(123, rest);
      assert s == [123, 125] + rest;
    } else {
      var inside := PrintFields(style, fields) + Ascii("}") + rest;
      ReadPrintedFields(style, fields, [], rest);
      ReadOpened(123, inside);
      assert s == [123] + inside;
      assert [] + ReceivedFields(style, fields) == ReceivedFields(style, fields);
    }
  }

  lemma IntStart(n: int)
    ensures PrintInt(n)[0] == MINUS || IsDigit(PrintInt(n)[0])
  {
  }

  lemma LastItem(s: Str, item: Json, rest: Str)
    requires ReadValue(s) == Some((item, Ascii("]") + rest))
    ensures ReadItems(s) == Some(([item], rest))
  {
  }

  lemma NextItem(style: Style, s: Str, item: Json, more: Str, items: seq<Json>, rest: Str)
    requires ReadValue(s) == Some((item, Separator(style, 44) + more))
    requires ValueStart(more) && ReadItems(more) == Some((items, rest))
    ensures ReadItems(s) == Some(([item] + items, rest))
  {
    hide ReadValue;
    SkipSeparator(style, 44, more);
  }

  lemma {:induction false} ReadPrintedItems(style: Style, items: seq<Json>, rest: Str)
    requires items != [] && forall i :: 0 <= i < |items| ==> Printable(style, items[i])
    ensures
      var s := PrintItems(style, items) + Ascii("]") + rest;
      ValueStart(s) && ReadItems(s) == Some((ReceivedItems(style, items), rest))
    decreases items, 1
  {
    hide ReadValue, ReadItems, Print, Received, Printable, ValueStart;
    var s := PrintItems(style, items) + Ascii("]") + rest;
    if |items| == 1 {
      var after := Ascii("]") + rest;
      assert s == Print(style, items[0]) + after;
      PrintedStart(style, items[0], after);
      ReadPrinted(style, items[0], after);
      LastItem(s, Received(style, items[0]), rest);
      var none := ReceivedItems(style, items[1..]);
      assert [Received(style, items[0])] + none == [Received(style, items[0])];
    } else {
      var more := PrintItems(style, items[1..]) + Ascii("]") + rest;
      var after := Separator(style, 44) + more;
      assert s == Print(style, items[0]) + after;
      PrintedStart(style, items[0], after);
      ReadPrinted(style, items[0], after);
      ReadPrintedItems(style, items[1..], rest);
      NextItem(style, s, Received(style, items[0]), more, ReceivedItems(style, items[1..]), rest);
    }
  }

  lemma ReadPrintedField(style: Style, field: (Str, Json), rest: Str)
    requires Printable(style, field.1) && Delimited(rest)
    ensures ReadField(PrintField(style, field) + rest) == Some((ReceivedField(style, field), rest))
    decreases field, 1
  {
    hide ReadValue, Print, Received, Printable, PrintStr;
    var s := PrintField(style, field) + rest;
    var value := Print(style, field.1) + rest;
    var after := Separator(style, 58) + value;
    assert s == PrintStr(style, field.0) + after;
    ReadPrintedStr(style, field.0, after);
    PrintedStart(style, field.1, rest);
    SkipSeparator(style, 58, value);
    ReadPrinted(style, field.1, rest);
  }

  ghost predicate DistinctKeys(style: Style, fields: seq<(Str, Json)>) {
    forall i, k :: 0 <= i < k < |fields| ==> Seen(style, fields[i].0) != Seen(style, fields[k].0)
  }

  lemma LastField(sofar: seq<(Str, Json)>, s: Str, field: (Str, Json), rest: Str)
    requires ReadField(s) == Some((field, Ascii("}") + rest))
    requires Put(sofar, field.0, field.1) == sofar + [field]
    ensures ReadFields(sofar, s) == Some((sofar + [field], rest))
  {
  }

  lemma NextField(
    style: Style, sofar: seq<(Str, Json)>, s: Str, field: (Str, Json), more: Str)
    requires ReadField(s) == Some((field, Separator(style, 44) + more))
    requires ValueStart(more) && Put(sofar, field.0, field.1) == sofar + [field]
    ensures ReadFields(sofar, s) == ReadFields(sofar + [field], more)
  {
    hide ReadField, Put;
    SkipSeparator(style, 44, more);
  }

  lemma {:induction false} ReadPrintedFields(
    style: Style, fields: seq<(Str, Json)>, sofar: seq<(Str, Json)>, rest: Str)
    requires fields != [] && DistinctKeys(style, fields)
    requires forall i :: 0 <= i < |fields| ==> Printable(style, fields[i].1)
    requires forall i, k :: 0 <= i < |sofar| && 0 <= k < |fields| ==> sofar[i].0 != Seen(style, fields[k].0)
    ensures
      var s := PrintFields(style, fields) + Ascii("}") + rest;
      ValueStart(s) && ReadFields(sofar, s) == Some((sofar + ReceivedFields(style, fields), rest))
    decreases fields, 2
  {
    hide ReadField, ReadFields, PrintField, Received, Seen, Printable, Put, ValueStart;
    var s := PrintFields(style, fields) + Ascii("}") + rest;
    var first := ReceivedField(style, fields[0]);
    assert first.0 == Seen(style, fields[0].0);
    PutNew(sofar, first.0, first.1);
    assert first == (first.0, first.1);
    if |fields| == 1 {
      var after := Ascii("}") + rest;
      assert s == PrintField(style, fields[0]) + after;
      FieldStart(style, fields[0], after);
      ReadPrintedField(style, fields[0], after);
      LastField(sofar, s, first, rest);
      var none := ReceivedFields(style, fields[1..]);
      assert [first] + none == [first];
    } else {
      var more := PrintFields(style, fields[1..]) + Ascii("}") + rest;
      var after := Separator(style, 44) + more;
      assert s == PrintField(style, fields[0]) + after;
      FieldStart(style, fields[0], after);
      ReadPrintedField(style, fields[0], after);
      ReadPrintedFields(style, fields[1..], sofar + [first], rest);
      NextField(style, sofar, s, first, more);
      assert sofar + ReceivedFields(style, fields) == sofar + [first] + ReceivedFields(style, fields[1..]);
    }
  }

  lemma FieldStart(style: Style, field: (Str, Json), rest: Str)
    ensures ValueStart(PrintField(style, field) + rest)
  {
  }

  /** json.loads of json.dumps. */
  lemma LoadsPrinted(style: Style, j: Json)
    requires Printable(style, j)
    ensures Loads(Print(style, j)) == Some(Received(style, j))
  {
    hide ReadValue, Print, Received;
    var s := Print(style, j);
    assert s + [] == s;
    PrintedStart(style, j, []);
    ReadPrinted(style, j, []);
  }
}
