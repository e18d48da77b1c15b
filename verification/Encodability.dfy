/** Which JSON values have a text that can be encoded as UTF-8. */
module Encodability {
  import opened Ordering
  import opened Json
  import opened Utf8
  import opened CanonicalJson

  /** No string or key anywhere in the value holds a surrogate. */
  ghost predicate ScalarJson(j: Json) {
    match j
    case JFloat(text) => Scalar(text)
    case JStr(s) => Scalar(s)
    case JArr(items) => forall i :: 0 <= i < |items| ==> ScalarJson(items[i])
    case JObj(fields) => forall i :: 0 <= i < |fields| ==> ScalarField(fields[i])
    case _ => true
  }

  ghost predicate ScalarField(field: Field) {
    Scalar(field.0) && ScalarJson(field.1)
  }

  lemma ScalarConcat(a: Str, b: Str)
    ensures Scalar(a + b) <==> Scalar(a) && Scalar(b)
  {
    if Scalar(a + b) {
      assert forall i :: 0 <= i < |a| ==> a[i] == (a + b)[i];
      assert forall i :: 0 <= i < |b| ==> b[i] == (a + b)[|a| + i];
    }
  }

  lemma EscapedScalar(c: CodePoint)
    ensures Scalar(EscapeOne(false, c)) <==> !IsSurrogate(c)
  {
  }

  lemma {:induction false} EscapeScalar(s: Str)
    ensures Scalar(Escape(false, s)) <==> Scalar(s)
  {
    if s != [] {
      hide EscapeOne;
      EscapedScalar(s[0]);
      EscapeScalar(s[1..]);
      ScalarConcat(EscapeOne(false, s[0]), Escape(false, s[1..]));
      ScalarConcat([s[0]], s[1..]);
      assert s == [s[0]] + s[1..];
      assert Scalar([s[0]]) <==> !IsSurrogate([s[0]][0]);
    }
  }

  lemma PrintStrScalar(style: Style, s: Str)
    requires !style.ascii
    ensures Scalar(PrintStr(style, s)) <==> Scalar(s)
  {
    hide Escape, Scalar;
    EscapeScalar(s);
    ScalarConcat([QUOTE] + Escape(false, s), [QUOTE]);
    ScalarConcat([QUOTE], Escape(false, s));
    OneScalar(QUOTE);
  }

  lemma OneScalar(c: CodePoint)
    requires c < 0x80
    ensures Scalar([c])
  {
  }

  lemma MarksScalar(style: Style)
    ensures Scalar(Ascii("null")) && Scalar(Ascii("true")) && Scalar(Ascii("false"))
    ensures Scalar(Ascii("[")) && Scalar(Ascii("]")) && Scalar(Ascii("{")) && Scalar(Ascii("}"))
    ensures Scalar(Separator(style, 44)) && Scalar(Separator(style, 58))
  {
  }

  lemma IntScalar(n: int)
    ensures Scalar(PrintInt(n))
  {
  }

  /** The printed text holds a surrogate exactly when the value does. */
  lemma {:induction false} PrintScalar(style: Style, j: Json)
    requires !style.ascii
    ensures Scalar(Print(style, j)) <==> ScalarJson(j)
    decreases j, 0
  {
    hide Scalar, PrintInt, PrintStr, PrintItems, PrintFields, Separator, Ascii, ScalarField;
    MarksScalar(style);
    match j
    case JInt(n) => IntScalar(n);
    case JStr(s) => PrintStrScalar(style, s);
    case JArr(items) =>
      PrintItemsScalar(style, items);
      ScalarConcat(Ascii("[") + PrintItems(style, items), Ascii("]"));
      ScalarConcat(Ascii("["), PrintItems(style, items));
    case JObj(fields) =>
      PrintFieldsScalar(style, fields);
      ScalarConcat(Ascii("{") + PrintFields(style, fields), Ascii("}"));
      ScalarConcat(Ascii("{"), PrintFields(style, fields));
    case _ =>
  }

  lemma {:induction false} PrintItemsScalar(style: Style, items: seq<Json>)
    requires !style.ascii
    ensures Scalar(PrintItems(style, items)) <==> forall i :: 0 <= i < |items| ==> ScalarJson(items[i])
    decreases items, 1
  {
    hide Scalar, Print, ScalarJson, Separator;
    MarksScalar(style);
    if items == [] {
      NoneScalar();
    } else {
      PrintScalar(style, items[0]);
      if |items| > 1 {
        PrintItemsScalar(style, items[1..]);
        ScalarConcat(Print(style, items[0]) + Separator(style, 44), PrintItems(style, items[1..]));
        ScalarConcat(Print(style, items[0]), Separator(style, 44));
        assert forall i :: 1 <= i < |items| ==> items[i] == items[1..][i - 1];
      }
    }
  }

  lemma NoneScalar()
    ensures Scalar([])
  {
  }

  lemma {:induction false} PrintFieldScalar(style: Style, field: Field)
    requires !style.ascii
    ensures Scalar(PrintField(style, field)) <==> ScalarField(field)
    decreases field, 1
  {
    hide Scalar, Print, PrintStr, ScalarJson, Separator;
    MarksScalar(style);
    PrintStrScalar(style, field.0);
    PrintScalar(style, field.1);
    ScalarConcat(PrintStr(style, field.0) + Separator(style, 58), Print(style, field.1));
    ScalarConcat(PrintStr(style, field.0), Separator(style, 58));
  }

  lemma {:induction false} PrintFieldsScalar(style: Style, fields: seq<Field>)
    requires !style.ascii
    ensures Scalar(PrintFields(style, fields)) <==> forall i :: 0 <= i < |fields| ==> ScalarField(fields[i])
    decreases fields, 2
  {
    hide Scalar, PrintField, ScalarField, Separator;
    MarksScalar(style);
    if fields == [] {
      NoneScalar();
    } else {
      PrintFieldScalar(style, fields[0]);
      if |fields| > 1 {
        PrintFieldsScalar(style, fields[1..]);
        ScalarConcat(PrintField(style, fields[0]) + Separator(style, 44), PrintFields(style, fields[1..]));
        ScalarConcat(PrintField(style, fields[0]), Separator(style, 44));
        assert forall i :: 1 <= i < |fields| ==> fields[i] == fields[1..][i - 1];
      }
    }
  }

  /** Sorting keys neither adds nor hides a surrogate. */
  lemma {:induction false} SortScalar(j: Json)
    ensures ScalarJson(SortKeys(j)) <==> ScalarJson(j)
    decreases j
  {
    hide Sort;
    match j
    case JArr(items) =>
      forall i | 0 <= i < |items|
        ensures ScalarJson(SortKeys(items[i])) <==> ScalarJson(items[i])
      {
        SortScalar(items[i]);
      }
    case JObj(fields) =>
      forall i | 0 <= i < |fields|
        ensures ScalarField(SortValue(fields[i])) <==> ScalarField(fields[i])
      {
        assert fields[i].1 < fields[i];
        SortScalar(fields[i].1);
      }
      SortFieldsScalar(fields);
    case _ =>
  }

  lemma InSorted(fields: seq<Field>, i: nat)
    requires i < |Sort(KeyLess, fields)|
    ensures Sort(KeyLess, fields)[i] in fields
  {
    assert Sort(KeyLess, fields)[i] in multiset(Sort(KeyLess, fields));
  }

  lemma SortFieldsScalar(fields: seq<Field>)
    requires forall i :: 0 <= i < |fields| ==> (ScalarField(SortValue(fields[i])) <==> ScalarField(fields[i]))
    ensures ScalarJson(SortKeys(JObj(fields))) <==> ScalarJson(JObj(fields))
  {
    hide ScalarField, SortValue, Sort;
    var inner := SortValues(fields);
    var sorted := Sort(KeyLess, inner);
    SameMultiset(sorted, inner);
    if forall i :: 0 <= i < |sorted| ==> ScalarField(sorted[i]) {
      forall i | 0 <= i < |fields|
        ensures ScalarField(fields[i])
      {
        assert inner[i] in sorted;
      }
    }
    if forall i :: 0 <= i < |fields| ==> ScalarField(fields[i]) {
      forall i | 0 <= i < |sorted|
        ensures ScalarField(sorted[i])
      {
        InSorted(inner, i);
      }
    }
  }

  /** json.dumps(..., sort_keys=True, ensure_ascii=False).encode("utf-8") raises exactly on surrogates. */
  lemma EncodableIffScalar(style: Style, j: Json)
    requires !style.ascii
    ensures Encode(Print(style, SortKeys(j))).Some? <==> ScalarJson(j)
  {
    hide Print, SortKeys, ScalarJson;
    SortScalar(j);
    PrintScalar(style, SortKeys(j));
  }
}
