/** Canonical JSON: what its text depends on and what it determines. */
module CanonicalJson {
  import opened Options
  import opened Ordering
  import opened Json
  import opened JsonRoundTrip

  const PLAIN := Style(false, false)

  type Field = (Str, Json)

  predicate KeyLess(a: Field, b: Field) {
    LexLess(a.0, b.0)
  }

  /** The value with the keys of every object, at every depth, in code-point order (sort_keys). */
  function SortKeys(j: Json): (r: Json)
    decreases j, 0
  {
    match j
    case JArr(items) => JArr(SortItems(items))
    case JObj(fields) => JObj(Sort(KeyLess, SortValues(fields)))
    case _ => j
  }

  function SortItems(items: seq<Json>): (r: seq<Json>)
    ensures |r| == |items|
    ensures forall i :: 0 <= i < |items| ==> r[i] == SortKeys(items[i])
    decreases items, 1
  {
    if items == [] then [] else [SortKeys(items[0])] + SortItems(items[1..])
  }

  function SortValue(field: Field): (r: Field)
    decreases field, 1
  {
    (field.0, SortKeys(field.1))
  }

  function SortValues(fields: seq<Field>): (r: seq<Field>)
    ensures |r| == |fields|
    ensures forall i :: 0 <= i < |fields| ==> r[i] == SortValue(fields[i])
    decreases fields, 2
  {
    if fields == [] then [] else [SortValue(fields[0])] + SortValues(fields[1..])
  }

  function Canonical(j: Json): (r: Str) {
    Print(PLAIN, SortKeys(j))
  }

  // -------------------------------------------------------------------------------------- meaning

  /** JSON values as JSON understands them: an object is a map. */
  datatype Value =
    | VNull
    | VBool(b: bool)
    | VInt(n: int)
    | VFloat(text: Str)
    | VStr(s: Str)
    | VArr(items: seq<Value>)
    | VObj(fields: map<Str, Value>)

  ghost function Meaning(j: Json): Value
    decreases j, 0
  {
    match j
    case JNull => VNull
    case JBool(b) => VBool(b)
    case JInt(n) => VInt(n)
    case JFloat(text) => VFloat(text)
    case JStr(s) => VStr(s)
    case JArr(items) => VArr(ItemsMeaning(items))
    case JObj(fields) => VObj(FieldsMeaning(fields))
  }

  ghost function ItemsMeaning(items: seq<Json>): (r: seq<Value>)
    ensures |r| == |items|
    ensures forall i :: 0 <= i < |items| ==> r[i] == Meaning(items[i])
    decreases items, 1
  {
    if items == [] then [] else [Meaning(items[0])] + ItemsMeaning(items[1..])
  }

  ghost function FieldsMeaning(fields: seq<Field>): (r: map<Str, Value>)
    decreases fields, 1
  {
    if fields == [] then map[]
    else
      assert fields[0].1 < fields[0];
      FieldsMeaning(fields[1..])[fields[0].0 := Meaning(fields[0].1)]
  }

  /** A value json.loads can produce: floats are numerals and every object's keys are distinct. */
  ghost predicate WellFormed(j: Json) {
    Printable(PLAIN, j)
  }

  ghost predicate KeysDistinct(fields: seq<Field>) {
    forall i, k :: 0 <= i < k < |fields| ==> fields[i].0 != fields[k].0
  }

  lemma {:induction false} FieldsMeaningAt(fields: seq<Field>)
    requires KeysDistinct(fields)
    ensures forall k :: k in FieldsMeaning(fields) <==> exists i :: 0 <= i < |fields| && fields[i].0 == k
    ensures forall i :: 0 <= i < |fields| ==> FieldsMeaning(fields)[fields[i].0] == Meaning(fields[i].1)
  {
    hide Meaning;
    if fields != [] {
      var rest := fields[1..];
      FieldsMeaningAt(rest);
      forall i | 0 <= i < |fields|
        ensures fields[i].0 in FieldsMeaning(fields)
        ensures FieldsMeaning(fields)[fields[i].0] == Meaning(fields[i].1)
      {
        if i > 0 {
          assert rest[i - 1] == fields[i];
        }
      }
      forall k | k in FieldsMeaning(fields)
        ensures exists i :: 0 <= i < |fields| && fields[i].0 == k
      {
        if k != fields[0].0 {
          var i :| 0 <= i < |rest| && rest[i].0 == k;
          assert fields[i + 1].0 == k;
        }
      }
    }
  }

  // -------------------------------------------------------------------------------------- sorting

  lemma KeyLessIsOrder()
    ensures WeakOrder(KeyLess)
  {
    forall a: Field
      ensures !KeyLess(a, a)
    {
      LexLessIrreflexive(a.0);
    }
    forall a: Field, b: Field, c: Field | KeyLess(a, b) && KeyLess(b, c)
      ensures KeyLess(a, c)
    {
      LexLessTransitive(a.0, b.0, c.0);
    }
    forall a: Field, b: Field, c: Field | !KeyLess(b, a) && !KeyLess(c, b)
      ensures !KeyLess(c, a)
    {
      LexLessTotal(b.0, a.0);
      LexLessTotal(c.0, b.0);
      if KeyLess(c, a) {
        if b.0 == a.0 || c.0 == b.0 {
        } else {
          LexLessTransitive(a.0, b.0, c.0);
          LexLessTransitive(a.0, c.0, a.0);
          LexLessIrreflexive(a.0);
        }
      }
    }
  }

  lemma KeysDecide(fields: seq<Field>)
    requires KeysDistinct(fields)
    ensures Distinct(fields) && Decides(KeyLess, fields)
  {
    forall x, y | x in fields && y in fields
      ensures x == y || KeyLess(x, y) || KeyLess(y, x)
    {
      LexLessTotal(x.0, y.0);
    }
  }

  lemma SortedFields(fields: seq<Field>)
    requires KeysDistinct(fields)
    ensures
      var sorted := Sort(KeyLess, fields);
      && StrictlySorted(KeyLess, sorted)
      && (forall x :: x in sorted <==> x in fields)
      && KeysDistinct(sorted)
  {
    KeyLessIsOrder();
    KeysDecide(fields);
    SortStrictlySorted(KeyLess, fields);
    var sorted := Sort(KeyLess, fields);
    forall i, k | 0 <= i < k < |sorted|
      ensures sorted[i].0 != sorted[k].0
    {
      assert KeyLess(sorted[i], sorted[k]);
      LexLessIrreflexive(sorted[i].0);
    }
  }

  /** Sorting distinct keys yields the one sorted arrangement of the fields. */
  lemma SortIs(fields: seq<Field>, sorted: seq<Field>)
    requires KeysDistinct(fields) && StrictlySorted(KeyLess, sorted) && forall x :: x in fields <==> x in sorted
    ensures Sort(KeyLess, fields) == sorted
  {
    hide Sort, KeysDistinct, StrictlySorted, StrictOrder;
    SortedFields(fields);
    FieldOrderIsStrict();
    StrictlySortedUnique(KeyLess, Sort(KeyLess, fields), sorted);
  }

  lemma FieldOrderIsStrict()
    ensures StrictOrder(KeyLess)
  {
    KeyLessIsOrder();
  }

  /** Permuting the fields of an object does not change what it means. */
  lemma SameFieldsSameMeaning(a: seq<Field>, b: seq<Field>)
    requires KeysDistinct(a) && KeysDistinct(b)
    requires forall x :: x in a <==> x in b
    ensures FieldsMeaning(a) == FieldsMeaning(b)
  {
    hide Meaning, FieldsMeaning;
    FieldsMeaningAt(a);
    FieldsMeaningAt(b);
    FieldsIncluded(a, b);
    FieldsIncluded(b, a);
  }

  lemma FieldsIncluded(a: seq<Field>, b: seq<Field>)
    requires KeysDistinct(a) && KeysDistinct(b)
    requires forall x :: x in a ==> x in b
    ensures forall k :: k in FieldsMeaning(a) ==> k in FieldsMeaning(b) && FieldsMeaning(b)[k] == FieldsMeaning(a)[k]
  {
    hide Meaning, FieldsMeaning;
    FieldsMeaningAt(a);
    FieldsMeaningAt(b);
    forall k | k in FieldsMeaning(a)
      ensures k in FieldsMeaning(b) && FieldsMeaning(b)[k] == FieldsMeaning(a)[k]
    {
      var i :| 0 <= i < |a| && a[i].0 == k;
      assert a[i] in b;
    }
  }

  /** Sorting keys changes neither what a value means nor that its keys are distinct. */
  lemma {:induction false} SortingKeepsMeaning(j: Json)
    requires WellFormed(j)
    ensures WellFormed(SortKeys(j)) && Meaning(SortKeys(j)) == Meaning(j)
    decreases j
  {
    match j
    case JArr(items) =>
      hide ItemsMeaning, SortItems;
      forall i | 0 <= i < |items|
        ensures WellFormed(SortKeys(items[i])) && Meaning(SortKeys(items[i])) == Meaning(items[i])
      {
        SortingKeepsMeaning(items[i]);
      }
      SortedArray(items);
    case JObj(fields) =>
      hide FieldsMeaning, SortValues;
      forall i | 0 <= i < |fields|
        ensures WellFormed(SortKeys(fields[i].1)) && Meaning(SortKeys(fields[i].1)) == Meaning(fields[i].1)
      {
        assert fields[i].1 < fields[i];
        SortingKeepsMeaning(fields[i].1);
      }
      SortedObject(fields);
    case _ =>
  }

  lemma SortedArray(items: seq<Json>)
    requires forall i :: 0 <= i < |items| ==>
      WellFormed(SortKeys(items[i])) && Meaning(SortKeys(items[i])) == Meaning(items[i])
    ensures WellFormed(SortKeys(JArr(items))) && Meaning(SortKeys(JArr(items))) == Meaning(JArr(items))
  {
  }

  lemma SortedObject(fields: seq<Field>)
    requires WellFormed(JObj(fields))
    requires forall i :: 0 <= i < |fields| ==>
      WellFormed(SortKeys(fields[i].1)) && Meaning(SortKeys(fields[i].1)) == Meaning(fields[i].1)
    ensures WellFormed(SortKeys(JObj(fields))) && Meaning(SortKeys(JObj(fields))) == Meaning(JObj(fields))
  {
    var inner := SortValues(fields);
    var sorted := Sort(KeyLess, inner);
    SortedValuesMeaning(fields);
    SortedValuesPrintable(inner);
    assert SortKeys(JObj(fields)) == JObj(sorted);
  }

  lemma SortedValuesMeaning(fields: seq<Field>)
    requires KeysDistinct(fields)
    requires forall i :: 0 <= i < |fields| ==> Meaning(SortKeys(fields[i].1)) == Meaning(fields[i].1)
    ensures KeysDistinct(SortValues(fields))
    ensures FieldsMeaning(Sort(KeyLess, SortValues(fields))) == FieldsMeaning(fields)
  {
    hide Meaning, FieldsMeaning, SortKeys, Sort;
    var inner := SortValues(fields);
    assert KeysDistinct(inner);
    SortedFields(inner);
    SameFieldsSameMeaning(Sort(KeyLess, inner), inner);
    PointwiseMeaning(inner, fields);
  }

  lemma {:induction false} PointwiseMeaning(a: seq<Field>, b: seq<Field>)
    requires |a| == |b|
    requires forall i :: 0 <= i < |a| ==> a[i].0 == b[i].0 && Meaning(a[i].1) == Meaning(b[i].1)
    ensures FieldsMeaning(a) == FieldsMeaning(b)
  {
    hide Meaning;
    if a != [] {
      PointwiseMeaning(a[1..], b[1..]);
    }
  }

  lemma SortedValuesPrintable(inner: seq<Field>)
    requires KeysDistinct(inner)
    requires forall i :: 0 <= i < |inner| ==> Printable(PLAIN, inner[i].1)
    ensures Printable(PLAIN, JObj(Sort(KeyLess, inner)))
  {
    hide Sort;
    var sorted := Sort(KeyLess, inner);
    SortedFields(inner);
    forall i | 0 <= i < |sorted|
      ensures Printable(PLAIN, sorted[i].1)
    {
      assert sorted[i] in inner;
    }
    assert DistinctKeys(PLAIN, sorted);
  }

  // ------------------------------------------------------------------------------------- theorems

  /** Key order does not matter: values that mean the same are normalised alike. */
  lemma {:induction false} MeaningDeterminesSorted(a: Json, b: Json)
    requires WellFormed(a) && WellFormed(b) && Meaning(a) == Meaning(b)
    ensures SortKeys(a) == SortKeys(b)
    decreases a
  {
    match a
    case JArr(items) =>
      forall i | 0 <= i < |items|
        ensures SortKeys(items[i]) == SortKeys(b.items[i])
      {
        assert Meaning(items[i]) == ItemsMeaning(items)[i];
        MeaningDeterminesSorted(items[i], b.items[i]);
      }
    case JObj(fields) =>
      forall i, k | 0 <= i < |fields| && 0 <= k < |b.fields| && Meaning(fields[i].1) == Meaning(b.fields[k].1)
        ensures SortKeys(fields[i].1) == SortKeys(b.fields[k].1)
      {
        assert fields[i].1 < fields[i];
        MeaningDeterminesSorted(fields[i].1, b.fields[k].1);
      }
      SameObjectSorted(fields, b.fields);
    case _ =>
  }

  lemma SameObjectSorted(a: seq<Field>, b: seq<Field>)
    requires KeysDistinct(a) && KeysDistinct(b) && FieldsMeaning(a) == FieldsMeaning(b)
    requires forall i, k :: 0 <= i < |a| && 0 <= k < |b| && Meaning(a[i].1) == Meaning(b[k].1) ==>
      SortKeys(a[i].1) == SortKeys(b[k].1)
    ensures Sort(KeyLess, SortValues(a)) == Sort(KeyLess, SortValues(b))
  {
    hide Meaning, FieldsMeaning, SortKeys, Sort;
    var x, y := SortValues(a), SortValues(b);
    assert KeysDistinct(x) && KeysDistinct(y);
    ValuesIncluded(a, b);
    ValuesIncluded(b, a);
    SortedFields(x);
    SortedFields(y);
    KeyLessIsOrder();
    StrictlySortedUnique(KeyLess, Sort(KeyLess, x), Sort(KeyLess, y));
  }

  lemma ValuesIncluded(a: seq<Field>, b: seq<Field>)
    requires KeysDistinct(a) && KeysDistinct(b) && FieldsMeaning(a) == FieldsMeaning(b)
    requires forall i, k :: 0 <= i < |a| && 0 <= k < |b| && Meaning(a[i].1) == Meaning(b[k].1) ==>
      SortKeys(a[i].1) == SortKeys(b[k].1)
    ensures forall x :: x in SortValues(a) ==> x in SortValues(b)
  {
    hide Meaning, FieldsMeaning, SortKeys;
    FieldsMeaningAt(a);
    FieldsMeaningAt(b);
    forall x | x in SortValues(a)
      ensures x in SortValues(b)
    {
      var i :| 0 <= i < |a| && SortValues(a)[i] == x;
      assert a[i].0 in FieldsMeaning(b);
      var k :| 0 <= k < |b| && b[k].0 == a[i].0;
      assert SortValues(b)[k] == x;
    }
  }

  /** Without ensure_ascii a reader gets back exactly what was printed. */
  lemma {:induction false} PlainIsReceived(style: Style, j: Json)
    requires !style.ascii
    ensures Received(style, j) == j
    decreases j, 0
  {
    match j
    case JArr(items) => PlainItems(style, items);
    case JObj(fields) => PlainFields(style, fields);
    case _ =>
  }

  lemma {:induction false} PlainItems(style: Style, items: seq<Json>)
    requires !style.ascii
    ensures ReceivedItems(style, items) == items
    decreases items, 1
  {
    if items != [] {
      PlainIsReceived(style, items[0]);
      PlainItems(style, items[1..]);
      assert items == [items[0]] + items[1..];
    }
  }

  lemma {:induction false} PlainFields(style: Style, fields: seq<Field>)
    requires !style.ascii
    ensures ReceivedFields(style, fields) == fields
    decreases fields, 1
  {
    if fields != [] {
      assert fields[0].1 < fields[0];
      PlainIsReceived(style, fields[0].1);
      PlainFields(style, fields[1..]);
      assert fields == [fields[0]] + fields[1..];
    }
  }

  lemma {:induction false} WellFormedPrints(style: Style, j: Json)
    requires WellFormed(j) && !style.ascii
    ensures Printable(style, j)
    decreases j
  {
    match j
    case JArr(items) =>
      forall i | 0 <= i < |items|
        ensures Printable(style, items[i])
      {
        WellFormedPrints(style, items[i]);
      }
    case JObj(fields) =>
      forall i | 0 <= i < |fields|
        ensures Printable(style, fields[i].1)
      {
        assert fields[i].1 < fields[i];
        WellFormedPrints(style, fields[i].1);
      }
      assert DistinctKeys(PLAIN, fields);
    case _ =>
  }

  /** With sorted keys, and with or without spaces, the text reads back as the value with its keys sorted. */
  lemma SortedRoundTrip(style: Style, j: Json)
    requires WellFormed(j) && !style.ascii
    ensures Loads(Print(style, SortKeys(j))) == Some(SortKeys(j)) && Meaning(SortKeys(j)) == Meaning(j)
  {
    hide Loads, Print;
    SortingKeepsMeaning(j);
    WellFormedPrints(style, SortKeys(j));
    LoadsPrinted(style, SortKeys(j));
    PlainIsReceived(style, SortKeys(j));
  }

  /** Two values have the same canonical text exactly when they mean the same. */
  lemma CanonicalIffSameMeaning(a: Json, b: Json)
    requires WellFormed(a) && WellFormed(b)
    ensures Canonical(a) == Canonical(b) <==> Meaning(a) == Meaning(b)
  {
    hide Loads;
    SortedRoundTrip(PLAIN, a);
    SortedRoundTrip(PLAIN, b);
    if Meaning(a) == Meaning(b) {
      MeaningDeterminesSorted(a, b);
    }
  }
}
