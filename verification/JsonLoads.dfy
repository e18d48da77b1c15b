/** Whatever json.loads reads from text survives any number of further dumps and loads. */
module JsonLoads {
  import opened Options
  import Decimals
  import opened Json
  import opened JsonRoundTrip
  import opened Utf8
  import opened CanonicalJson

  /** Numerals for floats, no split surrogate pair in any string, and distinct keys. */
  ghost predicate Clean(j: Json) {
    match j
    case JFloat(text) => FloatText(text)
    case JStr(s) => !HasSplitPair(s)
    case JArr(items) => forall i :: 0 <= i < |items| ==> Clean(items[i])
    case JObj(fields) => KeysDistinct(fields) && forall i :: 0 <= i < |fields| ==> CleanField(fields[i])
    case _ => true
  }

  ghost predicate CleanField(field: Field) {
    !HasSplitPair(field.0) && Clean(field.1)
  }

  // ------------------------------------------------------------------------------------- surviving

  lemma SeenClean(style: Style, s: Str)
    requires !HasSplitPair(s)
    ensures Seen(style, s) == s
  {
    MergeIsIdentity(s);
  }

  lemma {:induction false} CleanSurvives(style: Style, j: Json)
    requires Clean(j)
    ensures Printable(style, j) && Received(style, j) == j
    decreases j, 0
  {
    match j
    case JStr(s) => SeenClean(style, s);
    case JArr(items) => CleanItemsSurvive(style, items);
    case JObj(fields) =>
      CleanFieldsSurvive(style, fields);
      forall i | 0 <= i < |fields|
        ensures Seen(style, fields[i].0) == fields[i].0
      {
        SeenClean(style, fields[i].0);
      }
    case _ =>
  }

  lemma {:induction false} CleanItemsSurvive(style: Style, items: seq<Json>)
    requires forall i :: 0 <= i < |items| ==> Clean(items[i])
    ensures forall i :: 0 <= i < |items| ==> Printable(style, items[i])
    ensures ReceivedItems(style, items) == items
    decreases items, 1
  {
    hide Clean, Printable, Received;
    if items != [] {
      CleanSurvives(style, items[0]);
      CleanItemsSurvive(style, items[1..]);
      assert items == [items[0]] + items[1..];
    }
  }

  lemma {:induction false} CleanFieldsSurvive(style: Style, fields: seq<Field>)
    requires forall i :: 0 <= i < |fields| ==> CleanField(fields[i])
    ensures forall i :: 0 <= i < |fields| ==> Printable(style, fields[i].1)
    ensures ReceivedFields(style, fields) == fields
    decreases fields, 1
  {
    hide Clean, Printable, Received, Seen;
    if fields != [] {
      assert fields[0].1 < fields[0];
      SeenClean(style, fields[0].0);
      CleanSurvives(style, fields[0].1);
      CleanFieldsSurvive(style, fields[1..]);
      assert fields == [fields[0]] + fields[1..];
    }
  }

  // --------------------------------------------------------------------------------------- strings

  lemma CharKinds(s: Str)
    requires s != [] && Scalar(s) && ReadChar(s).Some?
    ensures
      var (c, rest) := ReadChar(s).value;
      && Scalar(rest)
      && (IsLow(c) ==> UnitAt(s).Some? && IsLow(UnitAt(s).value))
      && (IsHigh(c) ==> NoLowNext(rest))
  {
  }

  lemma {:induction false} StringIsClean(s: Str)
    requires Scalar(s) && ReadString(s).Some?
    ensures !HasSplitPair(ReadString(s).value.0) && Scalar(ReadString(s).value.1)
    ensures ReadString(s).value.0 != [] && IsLow(ReadString(s).value.0[0]) ==> !NoLowNext(s)
    decreases |s|
  {
    hide ReadChar, UnitAt;
    if s[0] != QUOTE {
      var (c, rest) := ReadChar(s).value;
      CharKinds(s);
      StringIsClean(rest);
    }
  }

  // --------------------------------------------------------------------------------------- numbers

  lemma FractionPrefix(s: Str, k: nat)
    requires Fraction(s) <= k <= |s|
    requires k > 0 && Fraction(s) == 0 ==> s[0] != 46
    ensures Fraction(s[..k]) == Fraction(s)
  {
  }

  lemma ExponentPrefix(s: Str)
    ensures Exponent(s[..Exponent(s)]) == Exponent(s)
  {
  }

  lemma FloatTailPrefix(s: Str)
    ensures FloatTail(s[..FloatTail(s)]) == FloatTail(s)
  {
    hide Exponent, DigitRun;
    var k, f := FloatTail(s), Fraction(s);
    ExponentPrefix(s[f..]);
    ExponentStart(s);
    FractionPrefix(s, k);
    assert s[..k][f..] == s[f..][..Exponent(s[f..])];
  }

  lemma ExponentStart(s: Str)
    ensures Exponent(s) > 0 ==> s[0] == 101 || s[0] == 69
  {
  }

  /** The numeral a float was read from reads as that float. */
  lemma NumberIsClean(s: Str)
    requires ReadNumber(s).Some? && ReadNumber(s).value.0.JFloat?
    ensures FloatText(ReadNumber(s).value.0.text)
  {
    hide FloatTail, IntDigits, Decimals.Value, SpecialFloat;
    var sign := if s != [] && s[0] == MINUS then 1 else 0;
    var body := s[sign..];
    var digits := IntDigits(body);
    var tail := FloatTail(body[digits..]);
    var t := s[..sign + digits + tail];
    assert t[0] == s[0];
    assert t[sign..] == body[..digits + tail];
    IntDigitsPrefix(body, digits + tail);
    assert body[..digits + tail][digits..] == body[digits..][..tail];
    FloatTailPrefix(body[digits..]);
    assert t[..sign + digits + tail] == t;
  }

  lemma IntDigitsPrefix(s: Str, k: nat)
    requires IntDigits(s) <= k <= |s| && IntDigits(s) > 0
    ensures IntDigits(s[..k]) == IntDigits(s)
  {
  }

  // ---------------------------------------------------------------------------------------- values

  lemma {:induction false} SkipScalar(s: Str)
    requires Scalar(s)
    ensures Scalar(Skip(s))
  {
    if s != [] && IsWhitespace(s[0]) {
      SkipScalar(s[1..]);
    }
  }

  /** Assigning a key replaces its value in place or appends it. */
  lemma {:induction false} PutShape(fields: seq<Field>, key: Str, value: Json)
    ensures
      || ((forall i :: 0 <= i < |fields| ==> fields[i].0 != key) && Put(fields, key, value) == fields + [(key, value)])
      || exists i :: 0 <= i < |fields| && fields[i].0 == key && Put(fields, key, value) == fields[i := (key, value)]
  {
    if fields != [] {
      var rest := fields[1..];
      if fields[0].0 == key {
        assert Put(fields, key, value) == fields[0 := (key, value)];
      } else {
        PutShape(rest, key, value);
        if forall i :: 0 <= i < |rest| ==> rest[i].0 != key {
          PutNew(rest, key, value);
          PutNew(fields, key, value);
        } else {
          var i :| 0 <= i < |rest| && rest[i].0 == key && Put(rest, key, value) == rest[i := (key, value)];
          assert [fields[0]] + rest[i := (key, value)] == fields[i + 1 := (key, value)];
        }
      }
    }
  }

  ghost predicate CleanFields(fields: seq<Field>) {
    KeysDistinct(fields) && forall i :: 0 <= i < |fields| ==> CleanField(fields[i])
  }

  lemma PutClean(fields: seq<Field>, key: Str, value: Json)
    requires CleanFields(fields) && CleanField((key, value))
    ensures CleanFields(Put(fields, key, value))
  {
    hide CleanField, Put;
    PutShape(fields, key, value);
  }

  lemma LiteralIsClean(s: Str)
    requires ReadLiteral(s).Some?
    ensures Clean(ReadLiteral(s).value.0)
    ensures exists k :: 0 <= k <= |s| && ReadLiteral(s).value.1 == s[k..]
  {
  }

  lemma NumberRest(s: Str)
    requires ReadNumber(s).Some?
    ensures exists k :: 0 <= k <= |s| && ReadNumber(s).value.1 == s[k..]
    ensures ReadNumber(s).value.0.JInt? || ReadNumber(s).value.0.JFloat?
  {
  }

  lemma AtomIsClean(s: Str)
    requires Scalar(s)
    ensures ReadNumber(s).Some? ==> Clean(ReadNumber(s).value.0) && Scalar(ReadNumber(s).value.1)
    ensures ReadLiteral(s).Some? ==> Clean(ReadLiteral(s).value.0) && Scalar(ReadLiteral(s).value.1)
  {
    hide ReadNumber, ReadLiteral, FloatText;
    if ReadNumber(s).Some? {
      NumberRest(s);
      if ReadNumber(s).value.0.JFloat? {
        NumberIsClean(s);
      }
    }
    if ReadLiteral(s).Some? {
      LiteralIsClean(s);
    }
  }

  lemma {:induction false} ValueIsClean(s: Str)
    requires Scalar(s) && ReadValue(s).Some?
    ensures Clean(ReadValue(s).value.0) && Scalar(ReadValue(s).value.1)
    decreases |s|, 0
  {
    hide ReadNumber, ReadLiteral, ReadString, ReadItems, ReadFields, HasSplitPair, FloatText;
    if s[0] == QUOTE {
      StringIsClean(s[1..]);
    } else if s[0] == 91 {
      SkipScalar(s[1..]);
      var t := Skip(s[1..]);
      if !(t != [] && t[0] == 93) {
        ItemsAreClean(t);
      }
    } else if s[0] == 123 {
      SkipScalar(s[1..]);
      var t := Skip(s[1..]);
      if !(t != [] && t[0] == 125) {
        FieldsAreClean([], t);
      }
    } else {
      AtomIsClean(s);
    }
  }

  lemma {:induction false} ItemsAreClean(s: Str)
    requires Scalar(s) && ReadItems(s).Some?
    ensures forall i :: 0 <= i < |ReadItems(s).value.0| ==> Clean(ReadItems(s).value.0[i])
    ensures Scalar(ReadItems(s).value.1)
    decreases |s|, 1
  {
    hide ReadValue, Clean;
    ValueIsClean(s);
    var after := ReadValue(s).value.1;
    SkipScalar(after);
    var t := Skip(after);
    if t[0] == 44 {
      SkipScalar(t[1..]);
      ItemsAreClean(Skip(t[1..]));
    }
  }

  lemma {:induction false} FieldIsClean(s: Str)
    requires Scalar(s) && ReadField(s).Some?
    ensures CleanField(ReadField(s).value.0) && Scalar(ReadField(s).value.1)
    decreases |s|, 1
  {
    hide ReadValue, Clean, ReadString, HasSplitPair;
    StringIsClean(s[1..]);
    var after := ReadString(s[1..]).value.1;
    SkipScalar(after);
    var t := Skip(after);
    SkipScalar(t[1..]);
    ValueIsClean(Skip(t[1..]));
  }

  lemma {:induction false} FieldsAreClean(sofar: seq<Field>, s: Str)
    requires CleanFields(sofar) && Scalar(s) && ReadFields(sofar, s).Some?
    ensures CleanFields(ReadFields(sofar, s).value.0) && Scalar(ReadFields(sofar, s).value.1)
    decreases |s|, 2
  {
    hide ReadField, CleanFields, CleanField;
    FieldIsClean(s);
    var field := ReadField(s).value.0;
    var after := ReadField(s).value.1;
    assert field == (field.0, field.1);
    PutClean(sofar, field.0, field.1);
    SkipScalar(after);
    var t := Skip(after);
    if t[0] == 44 {
      SkipScalar(t[1..]);
      FieldsAreClean(Put(sofar, field.0, field.1), Skip(t[1..]));
    }
  }

  /** What json.loads reads from Unicode text is read back unchanged after json.dumps in any style. */
  lemma LoadedSurvives(style: Style, text: Str, j: Json)
    requires Scalar(text) && Loads(text) == Some(j)
    ensures Clean(j) && Loads(Print(style, j)) == Some(j)
  {
    hide ReadValue, Print, Received, Clean, Printable;
    SkipScalar(text);
    ValueIsClean(Skip(text));
    CleanSurvives(style, j);
    LoadsPrinted(style, j);
  }
}
