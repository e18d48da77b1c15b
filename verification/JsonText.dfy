/** The exact characters of printed JSON: escapes, separators, and where white space can occur. */
module JsonText {
  import opened Ordering
  import opened Json
  import opened JsonRoundTrip
  import opened CanonicalJson

  // ---------------------------------------------------------------------------------------- escapes

  lemma PairText(text: string)
    requires |text| == 2
    ensures Ascii(text) == [text[0] as int, text[1] as int]
  {
  }

  /** How each kind of character is written. */
  lemma ShortEscapes(ascii: bool)
    ensures EscapeOne(ascii, 34) == Ascii("\\\"") && EscapeOne(ascii, 92) == Ascii("\\\\")
    ensures EscapeOne(ascii, 8) == Ascii("\\b") && EscapeOne(ascii, 9) == Ascii("\\t")
    ensures EscapeOne(ascii, 10) == Ascii("\\n") && EscapeOne(ascii, 12) == Ascii("\\f")
    ensures EscapeOne(ascii, 13) == Ascii("\\r")
  {
    hide Ascii;
    PairText("\\\"");
    PairText("\\\\");
    PairText("\\b");
    PairText("\\t");
    PairText("\\n");
    PairText("\\f");
    PairText("\\r");
  }

  lemma OtherEscapes(ascii: bool)
    ensures EscapeOne(ascii, 31) == Ascii("\\u001f")
    ensures EscapeOne(ascii, 47) == Ascii("/") && EscapeOne(ascii, 126) == Ascii("~")
  {
  }

  lemma EscapesBeyondAscii()
    ensures EscapeOne(true, 0x7F) == Ascii("\\u007f") && EscapeOne(false, 0x7F) == [0x7F]
    ensures EscapeOne(true, 0xE9) == Ascii("\\u00e9") && EscapeOne(false, 0xE9) == [0xE9]
    ensures EscapeOne(true, 0xABCD) == Ascii("\\uabcd") && EscapeOne(false, 0xABCD) == [0xABCD]
  {
  }

  lemma EscapesBeyondThePlane()
    ensures EscapeOne(true, 0x1F600) == Ascii("\\ud83d\\ude00") && EscapeOne(false, 0x1F600) == [0x1F600]
  {
    assert UnicodeEscape(0xD83D) == Ascii("\\ud83d");
    assert UnicodeEscape(0xDE00) == Ascii("\\ude00");
    assert Ascii("\\ud83d") + Ascii("\\ude00") == Ascii("\\ud83d\\ude00");
  }

  // ------------------------------------------------------------------------------------ white space

  ghost predicate Solid(s: Str) {
    forall i :: 0 <= i < |s| ==> !IsWhitespace(s[i])
  }

  /** No space inside a string, key or numeral; other white space is escaped when printed. */
  ghost predicate Spaceless(s: Str) {
    forall i :: 0 <= i < |s| ==> s[i] != SPACE
  }

  ghost predicate SpacelessJson(j: Json) {
    match j
    case JFloat(text) => Solid(text)
    case JStr(s) => Spaceless(s)
    case JArr(items) => forall i :: 0 <= i < |items| ==> SpacelessJson(items[i])
    case JObj(fields) => forall i :: 0 <= i < |fields| ==> SpacelessField(fields[i])
    case _ => true
  }

  ghost predicate SpacelessField(field: Field) {
    Spaceless(field.0) && SpacelessJson(field.1)
  }

  lemma SolidConcat(a: Str, b: Str)
    requires Solid(a) && Solid(b)
    ensures Solid(a + b)
  {
  }

  lemma EscapedIsSolid(ascii: bool, c: CodePoint)
    requires c != SPACE
    ensures Solid(EscapeOne(ascii, c))
  {
    if ShortEscape(c).None? && (c < 0x20 || (ascii && 0x7F <= c < 0x10000)) {
      UnitIsSolid(c);
    } else if ascii && c >= 0x10000 {
      UnitIsSolid(HighHalf(c));
      UnitIsSolid(LowHalf(c));
    }
  }

  lemma UnitIsSolid(unit: int)
    requires 0 <= unit < 0x10000
    ensures Solid(UnicodeEscape(unit))
  {
  }

  lemma {:induction false} EscapeIsSolid(ascii: bool, s: Str)
    requires Spaceless(s)
    ensures Solid(Escape(ascii, s))
  {
    if s != [] {
      hide EscapeOne;
      EscapedIsSolid(ascii, s[0]);
      EscapeIsSolid(ascii, s[1..]);
    }
  }

  lemma PrintedTextIsSolid(style: Style, s: Str)
    requires Spaceless(s)
    ensures Solid(PrintStr(style, s))
  {
    hide Escape;
    EscapeIsSolid(style.ascii, s);
  }

  lemma IntIsSolid(n: int)
    ensures Solid(PrintInt(n))
  {
    var digits: Str := if n < 0 then PrintInt(n)[1..] else PrintInt(n);
    assert forall i :: 0 <= i < |digits| ==> 48 <= digits[i] <= 57;
  }

  lemma MarksAreSolid(ascii: bool)
    ensures Solid(Ascii("null")) && Solid(Ascii("true")) && Solid(Ascii("false"))
    ensures Solid(Ascii("[")) && Solid(Ascii("]")) && Solid(Ascii("{")) && Solid(Ascii("}"))
    ensures Solid(Separator(Style(ascii, false), 44)) && Solid(Separator(Style(ascii, false), 58))
  {
  }

  /** Compact printing adds no white space of its own. */
  lemma {:induction false} CompactIsSolid(ascii: bool, j: Json)
    requires SpacelessJson(j)
    ensures Solid(Print(Style(ascii, false), j))
    decreases j, 0
  {
    hide Solid, Spaceless, PrintInt, PrintStr, PrintItems, PrintFields, Separator, Ascii, SpacelessField;
    var style := Style(ascii, false);
    MarksAreSolid(ascii);
    match j
    case JInt(n) => IntIsSolid(n);
    case JStr(s) => PrintedTextIsSolid(style, s);
    case JArr(items) =>
      ItemsAreSolid(ascii, items);
      SolidConcat(Ascii("["), PrintItems(style, items));
      SolidConcat(Ascii("[") + PrintItems(style, items), Ascii("]"));
    case JObj(fields) =>
      FieldsAreSolid(ascii, fields);
      SolidConcat(Ascii("{"), PrintFields(style, fields));
      SolidConcat(Ascii("{") + PrintFields(style, fields), Ascii("}"));
    case _ =>
  }

  lemma {:induction false} ItemsAreSolid(ascii: bool, items: seq<Json>)
    requires forall i :: 0 <= i < |items| ==> SpacelessJson(items[i])
    ensures Solid(PrintItems(Style(ascii, false), items))
    decreases items, 1
  {
    hide Print, SpacelessJson, Separator, Ascii;
    var style := Style(ascii, false);
    MarksAreSolid(ascii);
    if items != [] {
      CompactIsSolid(ascii, items[0]);
      if |items| > 1 {
        ItemsAreSolid(ascii, items[1..]);
      }
    }
  }

  lemma {:induction false} FieldIsSolid(ascii: bool, field: Field)
    requires SpacelessField(field)
    ensures Solid(PrintField(Style(ascii, false), field))
    decreases field, 1
  {
    hide Print, PrintStr, SpacelessJson, Separator, Ascii;
    MarksAreSolid(ascii);
    PrintedTextIsSolid(Style(ascii, false), field.0);
    CompactIsSolid(ascii, field.1);
  }

  lemma {:induction false} FieldsAreSolid(ascii: bool, fields: seq<Field>)
    requires forall i :: 0 <= i < |fields| ==> SpacelessField(fields[i])
    ensures Solid(PrintFields(Style(ascii, false), fields))
    decreases fields, 2
  {
    hide PrintField, SpacelessField, Separator, Ascii;
    MarksAreSolid(ascii);
    if fields != [] {
      FieldIsSolid(ascii, fields[0]);
      if |fields| > 1 {
        FieldsAreSolid(ascii, fields[1..]);
      }
    }
  }

  lemma {:induction false} SortedIsSpaceless(j: Json)
    requires SpacelessJson(j)
    ensures SpacelessJson(SortKeys(j))
    decreases j
  {
    hide Sort;
    match j
    case JArr(items) =>
      forall i | 0 <= i < |items|
        ensures SpacelessJson(SortKeys(items[i]))
      {
        SortedIsSpaceless(items[i]);
      }
    case JObj(fields) =>
      forall i | 0 <= i < |fields|
        ensures SpacelessField(SortValue(fields[i]))
      {
        assert fields[i].1 < fields[i];
        SortedIsSpaceless(fields[i].1);
      }
      SortedFieldsAreSpaceless(fields);
    case _ =>
  }

  lemma SortedFieldsAreSpaceless(fields: seq<Field>)
    requires forall i :: 0 <= i < |fields| ==> SpacelessField(SortValue(fields[i]))
    ensures SpacelessJson(SortKeys(JObj(fields)))
  {
    hide SpacelessField, SortValue, Sort;
    var inner := SortValues(fields);
    var sorted := Sort(KeyLess, inner);
    forall i | 0 <= i < |sorted|
      ensures SpacelessField(sorted[i])
    {
      assert sorted[i] in multiset(sorted);
      assert sorted[i] in inner;
    }
  }

  /** Canonical text holds no white space unless a key, string or numeral of the value does. */
  lemma CanonicalIsSolid(j: Json)
    requires SpacelessJson(j)
    ensures Solid(Canonical(j))
  {
    hide Print, SortKeys;
    SortedIsSpaceless(j);
    CompactIsSolid(false, SortKeys(j));
  }

  /** Spaces, tabs, newlines and carriage returns before a value are skipped. */
  lemma {:induction false} MarginIsSkipped(margin: Str, s: Str)
    requires forall i :: 0 <= i < |margin| ==> margin[i] in [32, 9, 10, 13]
    ensures Loads(margin + s) == Loads(s)
  {
    SkipMargin(margin, s);
  }

  lemma {:induction false} SkipMargin(margin: Str, s: Str)
    requires forall i :: 0 <= i < |margin| ==> margin[i] in [32, 9, 10, 13]
    ensures Skip(margin + s) == Skip(s)
  {
    if margin == [] {
      assert margin + s == s;
    } else {
      SkipMargin(margin[1..], s);
      assert (margin + s)[0] == margin[0] && (margin + s)[1..] == margin[1..] + s;
    }
  }

  /** A value followed by anything but white space is not JSON. */
  lemma TrailingTextIsRefused(style: Style, j: Json, rest: Str)
    requires Printable(style, j) && rest != [] && Delimited(rest)
    ensures Loads(Print(style, j) + rest).None?
  {
    hide ReadValue, Print, Received, Printable;
    PrintedStart(style, j, rest);
    ReadPrinted(style, j, rest);
    assert Skip(rest) == rest;
  }

  // ---------------------------------------------------------------------------------------- members

  /** The text of one member of an object, and of the comma between two. */
  function Member(spaced: bool, name: string, value: Str): (r: Str) {
    Ascii("\"" + name + (if spaced then "\": " else "\":")) + value
  }

  function Comma(spaced: bool): (r: Str) {
    if spaced then Ascii(", ") else Ascii(",")
  }

  predicate IsPlain(name: string) {
    forall i :: 0 <= i < |name| ==> ' ' <= name[i] <= '~' && name[i] != '"' && name[i] != '\\'
  }

  lemma {:induction false} PlainIsNotEscaped(ascii: bool, s: Str)
    requires forall i :: 0 <= i < |s| ==> 32 <= s[i] <= 126 && s[i] != 34 && s[i] != 92
    ensures Escape(ascii, s) == s
  {
    if s != [] {
      PlainIsNotEscaped(ascii, s[1..]);
      assert EscapeOne(ascii, s[0]) == [s[0]];
      assert s == [s[0]] + s[1..];
    }
  }

  lemma MemberIsField(style: Style, name: string, value: Json)
    requires IsPlain(name)
    ensures PrintField(style, (Ascii(name), value)) == Member(style.spaced, name, Print(style, value))
  {
    PlainIsNotEscaped(style.ascii, Ascii(name));
    assert PrintStr(style, Ascii(name)) == [QUOTE] + Ascii(name) + [QUOTE];
    KeyText(style, name);
    hide PrintStr, Separator, Ascii, Print;
  }

  lemma AsciiJoin(a: string, b: string)
    ensures Ascii(a + b) == Ascii(a) + Ascii(b)
  {
  }

  lemma KeyText(style: Style, name: string)
    ensures Ascii("\"" + name + (if style.spaced then "\": " else "\":")) ==
            [QUOTE] + Ascii(name) + [QUOTE] + Separator(style, 58)
  {
    var tail := if style.spaced then "\": " else "\":";
    assert Ascii("\"") == [QUOTE] && Ascii(tail) == [QUOTE] + Separator(style, 58);
    hide Ascii, Separator;
    AsciiJoin("\"", name);
    AsciiJoin("\"" + name, tail);
    var x, y, z := [QUOTE], Ascii(name), Separator(style, 58);
    assert x + y + ([QUOTE] + z) == x + y + [QUOTE] + z;
  }

  lemma MoreFields(style: Style, field: Field, rest: seq<Field>)
    requires rest != []
    ensures PrintFields(style, [field] + rest) ==
      PrintField(style, field) + Separator(style, 44) + PrintFields(style, rest)
  {
    assert ([field] + rest)[1..] == rest;
  }

  lemma CommaIsSeparator(style: Style)
    ensures Separator(style, 44) == Comma(style.spaced)
  {
  }

  // --------------------------------------------------------------------------------------- examples

  const TWO_KEYS := JObj([(Ascii("a"), JInt(1)), (Ascii("b"), JInt(2))])

  lemma PrintTwo(style: Style)
    ensures Print(style, TWO_KEYS) ==
      if style.spaced then Ascii("{\"a\": 1, \"b\": 2}") else Ascii("{\"a\":1,\"b\":2}")
  {
    var a, b: Field := (Ascii("a"), JInt(1)), (Ascii("b"), JInt(2));
    assert Ascii("a") == [97] && Ascii("b") == [98] && Ascii("{") == [123] && Ascii("}") == [125];
    FieldText(style, a, 97, 49);
    FieldText(style, b, 98, 50);
    TwoFields(style, a, b);
    TwoKeysText(style.spaced);
    assert TWO_KEYS == JObj([a, b]);
    assert Separator(style, 44) == if style.spaced then [44, 32] else [44];
    hide *;
  }

  lemma TwoFields(style: Style, a: Field, b: Field)
    ensures Print(style, JObj([a, b])) ==
      Ascii("{") + (PrintField(style, a) + Separator(style, 44) + PrintField(style, b)) + Ascii("}")
  {
    hide PrintField;
    var fields := [a, b];
    assert fields[1..] == [b];
    assert PrintFields(style, fields[1..]) == PrintField(style, b);
  }

  lemma TwoKeysText(spaced: bool)
    ensures
      if spaced then
        Ascii("{\"a\": 1, \"b\": 2}")
          == [123] + ([34, 97, 34, 58, 32, 49] + [44, 32] + [34, 98, 34, 58, 32, 50]) + [125]
      else
        Ascii("{\"a\":1,\"b\":2}") == [123] + ([34, 97, 34, 58, 49] + [44] + [34, 98, 34, 58, 50]) + [125]
  {
    if spaced {
      var text := "{\"a\": 1, \"b\": 2}";
      assert Ascii(text) == [123, 34, 97, 34, 58, 32, 49, 44, 32, 34, 98, 34, 58, 32, 50, 125];
    } else {
      var text := "{\"a\":1,\"b\":2}";
      assert Ascii(text) == [123, 34, 97, 34, 58, 49, 44, 34, 98, 34, 58, 50, 125];
    }
  }

  lemma FieldText(style: Style, field: Field, key: CodePoint, digit: CodePoint)
    requires 48 <= digit <= 57 && field == ([key], JInt(digit - 48)) && 97 <= key <= 98
    ensures PrintField(style, field) ==
      if style.spaced then [34, key, 34, 58, 32, digit] else [34, key, 34, 58, digit]
  {
    assert [key][1..] == [];
    assert Escape(style.ascii, [key]) == EscapeOne(style.ascii, key) + Escape(style.ascii, [key][1..]);
    assert PrintStr(style, [key]) == [34, key, 34];
    assert PrintInt(digit - 48) == [digit];
  }

  /** canonical_json({"b": 2, "a": 1}). */
  lemma CanonicalExample()
    ensures Canonical(JObj([(Ascii("b"), JInt(2)), (Ascii("a"), JInt(1))])) == Ascii("{\"a\":1,\"b\":2}")
  {
    hide Print;
    SortsTwo();
    PrintTwo(PLAIN);
  }

  lemma SortsTwo()
    ensures SortKeys(JObj([(Ascii("b"), JInt(2)), (Ascii("a"), JInt(1))])) == TWO_KEYS
  {
    hide Sort;
    var b, a: Field := (Ascii("b"), JInt(2)), (Ascii("a"), JInt(1));
    var fields, sorted := [b, a], [a, b];
    assert Ascii("a")[0] == 97 && Ascii("b")[0] == 98;
    assert KeyLess(a, b);
    assert fields[0] == sorted[1] && fields[1] == sorted[0];
    assert SortValue(a) == a && SortValue(b) == b;
    assert SortValues(fields) == fields;
    SortIs(fields, sorted);
  }
}
