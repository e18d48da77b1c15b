/** Values that key order cannot change, and others that mean the same in another key order. */
module Rigidity {
  import opened Options
  import opened Json
  import opened JsonRoundTrip
  import opened JsonLoads
  import opened CanonicalJson

  /** No object with two or more keys at any depth. */
  predicate Rigid(j: Json) {
    match j
    case JArr(items) => forall i :: 0 <= i < |items| ==> Rigid(items[i])
    case JObj(fields) => |fields| <= 1 && forall i :: 0 <= i < |fields| ==> Rigid(fields[i].1)
    case _ => true
  }

  /** Well-formed and equal up to key order. */
  ghost predicate SameMeaning(a: Json, b: Json) {
    WellFormed(a) && WellFormed(b) && Meaning(a) == Meaning(b)
  }

  lemma {:induction false} GetMeans(fields: seq<Field>, key: Str)
    requires WellFormed(JObj(fields))
    ensures Get(fields, key).Some? <==> key in FieldsMeaning(fields)
    ensures Get(fields, key).Some? ==>
      WellFormed(Get(fields, key).value) && Meaning(Get(fields, key).value) == FieldsMeaning(fields)[key]
  {
    hide Meaning;
    if fields != [] && fields[0].0 != key {
      assert DistinctKeys(PLAIN, fields[1..]);
      GetMeans(fields[1..], key);
    }
  }

  /** A rigid value is the only one with its meaning. */
  lemma {:induction false} RigidIsFixed(a: Json, b: Json)
    requires SameMeaning(a, b) && Rigid(a)
    ensures a == b
    decreases a
  {
    match a
    case JArr(items) =>
      forall i | 0 <= i < |items|
        ensures items[i] == b.items[i]
      {
        assert Meaning(items[i]) == ItemsMeaning(items)[i] == ItemsMeaning(b.items)[i] == Meaning(b.items[i]);
        RigidIsFixed(items[i], b.items[i]);
      }
    case JObj(fields) =>
      FieldsMeaningAt(fields);
      FieldsMeaningAt(b.fields);
      OneKey(fields, b.fields);
      if fields != [] {
        assert fields[0].1 < fields[0];
        RigidIsFixed(fields[0].1, b.fields[0].1);
      }
    case _ =>
  }

  lemma {:induction false} KeyCount(fields: seq<Field>)
    requires KeysDistinct(fields)
    ensures |FieldsMeaning(fields)| == |fields|
  {
    hide Meaning;
    if fields != [] {
      KeyCount(fields[1..]);
      FieldsMeaningAt(fields[1..]);
      var rest := FieldsMeaning(fields[1..]);
      assert FieldsMeaning(fields).Keys == rest.Keys + {fields[0].0};
      assert |rest.Keys| == |rest| && |FieldsMeaning(fields).Keys| == |FieldsMeaning(fields)|;
    }
  }

  lemma OneKey(a: seq<Field>, b: seq<Field>)
    requires KeysDistinct(a) && KeysDistinct(b) && FieldsMeaning(a) == FieldsMeaning(b) && |a| <= 1
    ensures |b| == |a|
    ensures a != [] ==> b[0].0 == a[0].0 && Meaning(b[0].1) == Meaning(a[0].1)
  {
    hide Meaning, FieldsMeaning;
    KeyCount(a);
    KeyCount(b);
    FieldsMeaningAt(a);
    FieldsMeaningAt(b);
    if a != [] {
      assert b[0].0 in FieldsMeaning(a);
    }
  }

  /** Replacing the value of a key by one that means the same. */
  lemma PutSameMeaning(fields: seq<Field>, key: Str, value: Json)
    requires Get(fields, key).Some? && SameMeaning(Get(fields, key).value, value) && WellFormed(JObj(fields))
    ensures SameMeaning(JObj(fields), JObj(Put(fields, key, value)))
  {
    hide Meaning, FieldsMeaning, Get, Put;
    PutShape(fields, key, value);
    PutAbsent(fields, key);
    var i :| 0 <= i < |fields| && fields[i].0 == key && Put(fields, key, value) == fields[i := (key, value)];
    assert KeysDistinct(fields);
    GetAt(fields, i);
    ReplaceSameMeaning(fields, i, value);
  }

  lemma {:induction false} PutAbsent(fields: seq<Field>, key: Str)
    ensures Get(fields, key).None? <==> forall i :: 0 <= i < |fields| ==> fields[i].0 != key
  {
    if fields != [] {
      PutAbsent(fields[1..], key);
      assert forall i :: 1 <= i < |fields| ==> fields[i] == fields[1..][i - 1];
    }
  }

  lemma {:induction false} GetAt(fields: seq<Field>, i: nat)
    requires KeysDistinct(fields) && i < |fields|
    ensures Get(fields, fields[i].0) == Some(fields[i].1)
  {
    if i > 0 {
      GetAt(fields[1..], i - 1);
    }
  }

  lemma ReplaceSameMeaning(fields: seq<Field>, i: nat, value: Json)
    requires WellFormed(JObj(fields)) && i < |fields| && SameMeaning(fields[i].1, value)
    ensures SameMeaning(JObj(fields), JObj(fields[i := (fields[i].0, value)]))
  {
    hide FieldsMeaning;
    var replaced := fields[i := (fields[i].0, value)];
    ReplacedIsWellFormed(fields, i, value);
    hide Printable;
    PointwiseMeaning(replaced, fields);
  }

  lemma ReplacedIsWellFormed(fields: seq<Field>, i: nat, value: Json)
    requires WellFormed(JObj(fields)) && i < |fields| && WellFormed(value)
    ensures WellFormed(JObj(fields[i := (fields[i].0, value)]))
  {
    var replaced := fields[i := (fields[i].0, value)];
    assert forall k :: 0 <= k < |replaced| ==> replaced[k].0 == fields[k].0;
    assert DistinctKeys(PLAIN, replaced);
  }

  lemma ReplaceItem(items: seq<Json>, i: nat, item: Json)
    requires WellFormed(JArr(items)) && i < |items| && SameMeaning(items[i], item)
    ensures SameMeaning(JArr(items), JArr(items[i := item]))
  {
    assert ItemsMeaning(items[i := item]) == ItemsMeaning(items);
  }

  lemma Rotated(fields: seq<Field>)
    requires WellFormed(JObj(fields)) && |fields| >= 2
    ensures
      var rotated := fields[1..] + [fields[0]];
      SameMeaning(JObj(fields), JObj(rotated)) && rotated != fields
  {
    var rotated := fields[1..] + [fields[0]];
    assert KeysDistinct(fields);
    assert forall i :: 0 <= i < |fields| - 1 ==> rotated[i] == fields[i + 1];
    assert rotated[|fields| - 1] == fields[0];
    assert KeysDistinct(rotated);
    assert fields == [fields[0]] + fields[1..];
    assert forall x :: x in rotated <==> x in fields;
    SameFieldsSameMeaning(fields, rotated);
    assert forall i :: 0 <= i < |rotated| ==> Printable(PLAIN, rotated[i].1);
    assert DistinctKeys(PLAIN, rotated);
    assert rotated[0].0 != fields[0].0;
  }

  /** A value that is not rigid has another key order. */
  lemma {:induction false} Reordered(j: Json) returns (k: Json)
    requires WellFormed(j) && !Rigid(j)
    ensures SameMeaning(j, k) && k != j
    decreases j
  {
    match j
    case JArr(items) =>
      var i :| 0 <= i < |items| && !Rigid(items[i]);
      var item := Reordered(items[i]);
      ReplaceItem(items, i, item);
      k := JArr(items[i := item]);
      assert k.items[i] != items[i];
    case JObj(fields) =>
      if |fields| >= 2 {
        Rotated(fields);
        k := JObj(fields[1..] + [fields[0]]);
      } else {
        assert fields[0].1 < fields[0];
        var value := Reordered(fields[0].1);
        ReplaceSameMeaning(fields, 0, value);
        k := JObj(fields[0 := (fields[0].0, value)]);
        assert k.fields[0].1 != fields[0].1;
      }
  }
}
