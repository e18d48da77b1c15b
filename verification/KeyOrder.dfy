/** When the key order of a release candidate can show in its evidence bundle. */
module KeyOrder {
  import opened Options
  import opened Json
  import opened JsonRoundTrip
  import opened CanonicalJson
  import opened Hashing
  import opened Bundle
  import opened Rigidity

  /** A property of values, such as being text or being rigid. */
  type Property = Json -> bool

  // ---------------------------------------------------------------------------------- quoted fields

  predicate FieldIs(ok: Property, fields: seq<Field>, key: Str) {
    Get(fields, key).None? || ok(Get(fields, key).value)
  }

  predicate DecisionIs(ok: Property, j: Json) {
    j.JObj? ==> FieldIs(ok, j.fields, Ascii("point"))
  }

  predicate ActorIs(ok: Property, approval: seq<Field>) {
    match Get(approval, Ascii("actor"))
    case Some(JObj(actor)) => FieldIs(ok, actor, Ascii("id"))
    case _ => true
  }

  predicate ApprovalIs(ok: Property, j: Json) {
    j.JObj? ==> FieldIs(ok, j.fields, Ascii("role")) && ActorIs(ok, j.fields)
  }

  predicate ElementsAre(ok: Property, candidate: seq<Field>, key: Str) {
    var elements := Elements(candidate, key);
    elements.Some? ==> forall i :: 0 <= i < |elements.value| ==> ok(elements.value[i])
  }

  /** Every value quoted in the image or in an item reference has the property. */
  predicate Quotes(ok: Property, candidate: seq<Field>) {
    && FieldIs(ok, candidate, Ascii("image"))
    && ElementsAre(j => DecisionIs(ok, j), candidate, Ascii("policy_decisions"))
    && ElementsAre(j => ApprovalIs(ok, j), candidate, Ascii("approvals"))
  }

  predicate IsText(j: Json) {
    j.JStr?
  }

  lemma TextIsRigid(candidate: seq<Field>)
    requires Quotes(IsText, candidate)
    ensures Quotes(Rigid, candidate)
  {
    hide Get;
  }

  // ---------------------------------------------------------------------------- rigid quotes suffice

  ghost predicate Alike(a: Option<Json>, b: Option<Json>) {
    match (a, b)
    case (Some(x), Some(y)) => SameMeaning(x, y)
    case _ => a == b
  }

  lemma GetAlike(a: seq<Field>, b: seq<Field>, key: Str)
    requires SameMeaning(JObj(a), JObj(b))
    ensures Alike(Get(a, key), Get(b, key))
  {
    hide WellFormed, FieldsMeaning, Get;
    GetMeans(a, key);
    GetMeans(b, key);
  }

  lemma ShownAlike(show: Show, a: seq<Field>, b: seq<Field>, key: Str)
    requires SameMeaning(JObj(a), JObj(b)) && FieldIs(Rigid, a, key)
    ensures ShowField(show, a, key) == ShowField(show, b, key)
  {
    hide WellFormed, Meaning, Get, Rigid;
    GetAlike(a, b, key);
    if Get(a, key).Some? {
      RigidIsFixed(Get(a, key).value, Get(b, key).value);
    }
  }

  lemma ObjectAlike(hash: Hash, a: seq<Field>, b: seq<Field>, kind: Str)
    requires SameMeaning(JObj(a), JObj(b))
    ensures ObjectItem(hash, a, kind) == ObjectItem(hash, b, kind)
  {
    hide WellFormed, Get, FieldsMeaning, Digest;
    GetAlike(a, b, kind);
    if Get(a, kind).Some? {
      SameMeaningSameDigest(hash, Get(a, kind).value, Get(b, kind).value);
    }
  }

  lemma DecisionAlike(hash: Hash, show: Show, a: Json, b: Json)
    requires SameMeaning(a, b) && DecisionIs(Rigid, a)
    ensures DecisionItem(hash, show, a) == DecisionItem(hash, show, b)
  {
    hide WellFormed, Get, FieldsMeaning, Digest, Rigid;
    SameMeaningSameDigest(hash, a, b);
    if a.JObj? {
      ShownAlike(show, a.fields, b.fields, Ascii("point"));
    }
  }

  lemma ActorAlike(show: Show, a: seq<Field>, b: seq<Field>)
    requires SameMeaning(JObj(a), JObj(b)) && ActorIs(Rigid, a)
    ensures ActorId(show, a) == ActorId(show, b)
  {
    hide WellFormed, Get, FieldsMeaning, Rigid;
    GetAlike(a, b, Ascii("actor"));
    match Get(a, Ascii("actor"))
    case Some(JObj(actor)) => ShownAlike(show, actor, Get(b, Ascii("actor")).value.fields, Ascii("id"));
    case _ =>
  }

  lemma ApprovalAlike(hash: Hash, show: Show, a: Json, b: Json)
    requires SameMeaning(a, b) && ApprovalIs(Rigid, a)
    ensures ApprovalItem(hash, show, a) == ApprovalItem(hash, show, b)
  {
    hide WellFormed, Get, FieldsMeaning, Digest, Rigid, ActorIs, ActorId;
    SameMeaningSameDigest(hash, a, b);
    if a.JObj? {
      ShownAlike(show, a.fields, b.fields, Ascii("role"));
      ActorAlike(show, a.fields, b.fields);
    }
  }

  lemma {:induction false} GatherAlike<T>(
    item: T -> Option<seq<Item>>, item': T -> Option<seq<Item>>, a: seq<T>, b: seq<T>)
    requires |a| == |b| && forall i :: 0 <= i < |a| ==> item(a[i]) == item'(b[i])
    ensures Gather(item, a) == Gather(item', b)
  {
    if a != [] {
      GatherAlike(item, item', a[1..], b[1..]);
    }
  }

  lemma ElementsAlike(a: seq<Field>, b: seq<Field>, key: Str)
    requires SameMeaning(JObj(a), JObj(b))
    ensures
      var x, y := Elements(a, key), Elements(b, key);
      && x.Some? == y.Some?
      && (x.Some? ==> |x.value| == |y.value|)
      && (x.Some? ==> forall i :: 0 <= i < |x.value| ==> SameMeaning(x.value[i], y.value[i]))
  {
    hide FieldsMeaning, Get;
    GetAlike(a, b, key);
    match Get(a, key)
    case Some(JArr(items)) =>
      var items' := Get(b, key).value.items;
      assert ItemsMeaning(items) == ItemsMeaning(items');
      forall i | 0 <= i < |items|
        ensures SameMeaning(items[i], items'[i])
      {
        assert ItemsMeaning(items)[i] == ItemsMeaning(items')[i];
      }
    case _ =>
  }

  /** An item function that does not tell apart elements of the same meaning. */
  lemma GatheredAlike(item: Json -> Option<seq<Item>>, a: seq<Field>, b: seq<Field>, key: Str)
    requires SameMeaning(JObj(a), JObj(b))
    requires Elements(a, key).Some? ==> forall i, j ::
      0 <= i < |Elements(a, key).value| && SameMeaning(Elements(a, key).value[i], j) ==>
        item(Elements(a, key).value[i]) == item(j)
    ensures GatherField(item, a, key) == GatherField(item, b, key)
  {
    hide SameMeaning, Elements;
    ElementsAlike(a, b, key);
    if Elements(a, key).Some? {
      GatherAlike(item, item, Elements(a, key).value, Elements(b, key).value);
    }
  }

  /** With rigid quotes, key order changes neither the image nor the items. */
  lemma ItemsFollowMeaning(hash: Hash, show: Show, a: seq<Field>, b: seq<Field>)
    requires SameMeaning(JObj(a), JObj(b)) && Quotes(Rigid, a)
    ensures ShowField(show, a, Ascii("image")) == ShowField(show, b, Ascii("image"))
    ensures Items(hash, show, a) == Items(hash, show, b)
  {
    hide SameMeaning, Get, ObjectItem, DecisionItem, ApprovalItem, Gather, DecisionIs, ApprovalIs, Elements, Rigid;
    hide GatherField, ShowField;
    ShownAlike(show, a, b, Ascii("image"));
    forall i | 0 <= i < |OBJECT_ITEMS|
      ensures ObjectItem(hash, a, OBJECT_ITEMS[i]) == ObjectItem(hash, b, OBJECT_ITEMS[i])
    {
      ObjectAlike(hash, a, b, OBJECT_ITEMS[i]);
    }
    GatherAlike(kind => ObjectItem(hash, a, kind), kind => ObjectItem(hash, b, kind), OBJECT_ITEMS, OBJECT_ITEMS);
    DecisionsAlike(hash, show, a, b);
    ApprovalsAlike(hash, show, a, b);
  }

  lemma DecisionsAlike(hash: Hash, show: Show, a: seq<Field>, b: seq<Field>)
    requires SameMeaning(JObj(a), JObj(b))
    requires ElementsAre(j => DecisionIs(Rigid, j), a, Ascii("policy_decisions"))
    ensures GatherField(j => DecisionItem(hash, show, j), a, Ascii("policy_decisions"))
         == GatherField(j => DecisionItem(hash, show, j), b, Ascii("policy_decisions"))
  {
    hide SameMeaning, DecisionItem, DecisionIs, Elements, GatherField;
    var elements := Elements(a, Ascii("policy_decisions"));
    if elements.Some? {
      forall i, j | 0 <= i < |elements.value| && SameMeaning(elements.value[i], j)
        ensures DecisionItem(hash, show, elements.value[i]) == DecisionItem(hash, show, j)
      {
        DecisionAlike(hash, show, elements.value[i], j);
      }
    }
    GatheredAlike(j => DecisionItem(hash, show, j), a, b, Ascii("policy_decisions"));
  }

  lemma ApprovalsAlike(hash: Hash, show: Show, a: seq<Field>, b: seq<Field>)
    requires SameMeaning(JObj(a), JObj(b))
    requires ElementsAre(j => ApprovalIs(Rigid, j), a, Ascii("approvals"))
    ensures GatherField(j => ApprovalItem(hash, show, j), a, Ascii("approvals"))
         == GatherField(j => ApprovalItem(hash, show, j), b, Ascii("approvals"))
  {
    hide SameMeaning, ApprovalItem, ApprovalIs, Elements, GatherField;
    var elements := Elements(a, Ascii("approvals"));
    if elements.Some? {
      forall i, j | 0 <= i < |elements.value| && SameMeaning(elements.value[i], j)
        ensures ApprovalItem(hash, show, elements.value[i]) == ApprovalItem(hash, show, j)
      {
        ApprovalAlike(hash, show, elements.value[i], j);
      }
    }
    GatheredAlike(j => ApprovalItem(hash, show, j), a, b, Ascii("approvals"));
  }

  // ------------------------------------------------------------------------------ and are necessary

  /** str() tells apart values that differ in key order alone, as Python's does. */
  ghost predicate SeesOrder(show: Show) {
    forall x, y :: SameMeaning(x, y) && show(x) == show(y) ==> x == y
  }

  /** Compact printing is one such rendering. */
  lemma PrintingSeesOrder()
    ensures SeesOrder(j => Print(PLAIN, j))
  {
    hide Print, Meaning;
    forall x, y | SameMeaning(x, y) && Print(PLAIN, x) == Print(PLAIN, y)
      ensures x == y
    {
      LoadsPrinted(PLAIN, x);
      LoadsPrinted(PLAIN, y);
      PlainIsReceived(PLAIN, x);
      PlainIsReceived(PLAIN, y);
    }
  }

  /** The image and the items, whatever the order of keys in the candidate. */
  ghost predicate OrderFree(hash: Hash, show: Show, a: seq<Field>) {
    forall b :: SameMeaning(JObj(a), JObj(b)) ==>
      ShowField(show, b, Ascii("image")) == ShowField(show, a, Ascii("image"))
      && Items(hash, show, b) == Items(hash, show, a)
  }

  lemma FieldShows(show: Show, fields: seq<Field>, key: Str) returns (changed: seq<Field>)
    requires WellFormed(JObj(fields)) && SeesOrder(show) && !FieldIs(Rigid, fields, key)
    ensures SameMeaning(JObj(fields), JObj(changed))
    ensures ShowField(show, changed, key) != ShowField(show, fields, key)
    ensures forall k :: k != key ==> Get(changed, k) == Get(fields, k)
  {
    hide SameMeaning, Get, Put, Rigid, WellFormed;
    GetMeans(fields, key);
    var value := Reordered(Get(fields, key).value);
    changed := Put(fields, key, value);
    PutSameMeaning(fields, key, value);
    forall k
      ensures Get(changed, k) == if k == key then Some(value) else Get(fields, k)
    {
      GetPut(fields, key, value, k);
    }
  }

  lemma RefShows(hash: Hash, kind: Str, a: Json, b: Json, ref: Str, ref': Str)
    requires SameMeaning(a, b) && ref != ref' && ItemOf(hash, kind, ref, a).Some?
    ensures ItemOf(hash, kind, ref, a) != ItemOf(hash, kind, ref', b)
  {
    hide WellFormed, Meaning, Digest;
    SameMeaningSameDigest(hash, a, b);
  }

  lemma DecisionShows(hash: Hash, show: Show, a: Json) returns (b: Json)
    requires WellFormed(a) && SeesOrder(show) && !DecisionIs(Rigid, a) && DecisionItem(hash, show, a).Some?
    ensures SameMeaning(a, b) && DecisionItem(hash, show, b) != DecisionItem(hash, show, a)
  {
    hide SameMeaning, ShowField, WellFormed, ItemOf;
    var fields := FieldShows(show, a.fields, Ascii("point"));
    b := JObj(fields);
    RefShows(hash, Ascii("policy-decision"), a, b, ShowField(show, a.fields, Ascii("point")),
             ShowField(show, fields, Ascii("point")));
  }

  lemma ActorShows(show: Show, approval: seq<Field>) returns (changed: seq<Field>)
    requires WellFormed(JObj(approval)) && SeesOrder(show) && !ActorIs(Rigid, approval)
    ensures SameMeaning(JObj(approval), JObj(changed)) && ActorId(show, changed) != ActorId(show, approval)
    ensures Get(changed, Ascii("role")) == Get(approval, Ascii("role"))
  {
    hide SameMeaning, WellFormed, Get, Put, Rigid, Ascii;
    var key := Ascii("actor");
    GetMeans(approval, key);
    var actor := Get(approval, key).value.fields;
    var other := FieldShows(show, actor, Ascii("id"));
    changed := Put(approval, key, JObj(other));
    PutSameMeaning(approval, key, JObj(other));
    GetPut(approval, key, JObj(other), key);
    GetPut(approval, key, JObj(other), Ascii("role"));
    KeysApart("actor", "role");
  }

  function ApprovalRef(show: Show, fields: seq<Field>): (r: Str) {
    ShowField(show, fields, Ascii("role")) + Ascii(":") + ActorId(show, fields)
  }

  lemma RoleShows(show: Show, approval: seq<Field>) returns (changed: seq<Field>)
    requires WellFormed(JObj(approval)) && SeesOrder(show) && !FieldIs(Rigid, approval, Ascii("role"))
    ensures SameMeaning(JObj(approval), JObj(changed))
    ensures ShowField(show, changed, Ascii("role")) != ShowField(show, approval, Ascii("role"))
    ensures ActorId(show, changed) == ActorId(show, approval)
  {
    hide SameMeaning, WellFormed, Get, Rigid, Ascii;
    changed := FieldShows(show, approval, Ascii("role"));
    KeysApart("actor", "role");
  }

  lemma EndsAgree(a: Str, b: Str, c: Str, d: Str, mid: Str)
    ensures a + mid + c == b + mid + d && (a == b || c == d) ==> a == b && c == d
  {
    var x, y := a + mid + c, b + mid + d;
    if x == y && (a == b || c == d) {
      assert |a| == |b|;
      assert a == x[..|a|] && b == y[..|b|];
      assert c == x[|a + mid|..] && d == y[|b + mid|..];
    }
  }

  lemma ApprovalShows(hash: Hash, show: Show, a: Json) returns (b: Json)
    requires WellFormed(a) && SeesOrder(show) && !ApprovalIs(Rigid, a) && ApprovalItem(hash, show, a).Some?
    ensures SameMeaning(a, b) && ApprovalItem(hash, show, b) != ApprovalItem(hash, show, a)
  {
    hide SameMeaning, WellFormed, Get, Rigid, Ascii, ItemOf, ActorId, ActorIs, FieldIs, ShowField;
    var fields;
    if FieldIs(Rigid, a.fields, Ascii("role")) {
      fields := ActorShows(show, a.fields);
      SameField(show, fields, a.fields, Ascii("role"));
    } else {
      fields := RoleShows(show, a.fields);
    }
    EndsAgree(ShowField(show, a.fields, Ascii("role")), ShowField(show, fields, Ascii("role")),
              ActorId(show, a.fields), ActorId(show, fields), Ascii(":"));
    b := JObj(fields);
    RefShows(hash, Ascii("approval"), a, b, ApprovalRef(show, a.fields), ApprovalRef(show, fields));
  }

  lemma SameField(show: Show, a: seq<Field>, b: seq<Field>, key: Str)
    requires Get(a, key) == Get(b, key)
    ensures ShowField(show, a, key) == ShowField(show, b, key)
  {
  }

  lemma GatherAround(item: Json -> Option<seq<Item>>, elements: seq<Json>, i: nat)
    requires i < |elements|
    ensures Gather(item, elements) ==
      Both(Gather(item, elements[..i]), Both(item(elements[i]), Gather(item, elements[i + 1..])))
  {
    assert elements == elements[..i] + elements[i..];
    GatherSplit(item, elements[..i], elements[i..]);
    assert elements[i..][1..] == elements[i + 1..];
  }

  lemma BothCancels(a: Option<seq<Item>>, b: Option<seq<Item>>, b': Option<seq<Item>>, c: Option<seq<Item>>)
    ensures Both(a, Both(b, c)).Some? && Both(a, Both(b, c)) == Both(a, Both(b', c)) ==> b == b'
    ensures Both(b, c).Some? && Both(b, c) == Both(b', c) ==> b == b'
    ensures Both(a, b).Some? && Both(a, b) == Both(a, b') ==> b == b'
  {
    if b.Some? && b'.Some? {
      if c.Some? && b.value + c.value == b'.value + c.value {
        assert |b.value| == |b'.value|;
        assert b.value == (b.value + c.value)[..|b.value|] && b'.value == (b'.value + c.value)[..|b.value|];
      }
      if a.Some? && a.value + b.value == a.value + b'.value {
        PrefixCancels(a.value, b.value, b'.value);
      }
      if a.Some? && c.Some? && a.value + (b.value + c.value) == a.value + (b'.value + c.value) {
        PrefixCancels(a.value, b.value + c.value, b'.value + c.value);
        assert |b.value| == |b'.value|;
        assert b.value == (b.value + c.value)[..|b.value|] && b'.value == (b'.value + c.value)[..|b.value|];
      }
    }
  }

  lemma PrefixCancels(a: seq<Item>, x: seq<Item>, y: seq<Item>)
    requires a + x == a + y
    ensures x == y
  {
    assert x == (a + x)[|a|..] && y == (a + y)[|a|..];
  }

  /** Changing one element of a list field changes what is gathered from it. */
  lemma ElementShows(
    item: Json -> Option<seq<Item>>, candidate: seq<Field>, key: Str, i: nat, j: Json) returns (changed: seq<Field>)
    requires WellFormed(JObj(candidate)) && Elements(candidate, key).Some? && i < |Elements(candidate, key).value|
    requires SameMeaning(Elements(candidate, key).value[i], j) && item(j) != item(Elements(candidate, key).value[i])
    requires GatherField(item, candidate, key).Some?
    ensures SameMeaning(JObj(candidate), JObj(changed))
    ensures GatherField(item, changed, key) != GatherField(item, candidate, key)
    ensures forall k :: k != key ==> Get(changed, k) == Get(candidate, k)
  {
    hide SameMeaning, WellFormed, Get, Put, Gather;
    var elements := Elements(candidate, key).value;
    GetMeans(candidate, key);
    ReplaceItem(elements, i, j);
    var value := JArr(elements[i := j]);
    changed := Put(candidate, key, value);
    PutSameMeaning(candidate, key, value);
    forall k
      ensures Get(changed, k) == if k == key then Some(value) else Get(candidate, k)
    {
      GetPut(candidate, key, value, k);
    }
    GatherAround(item, elements, i);
    GatherAround(item, elements[i := j], i);
    assert elements[i := j][..i] == elements[..i] && elements[i := j][i + 1..] == elements[i + 1..];
    BothCancels(Gather(item, elements[..i]), item(elements[i]), item(j), Gather(item, elements[i + 1..]));
  }

  lemma GatheredEach(item: Json -> Option<seq<Item>>, candidate: seq<Field>, key: Str, i: nat)
    requires GatherField(item, candidate, key).Some? && Elements(candidate, key).Some?
    requires i < |Elements(candidate, key).value|
    ensures item(Elements(candidate, key).value[i]).Some?
  {
    hide Gather;
    GatherAround(item, Elements(candidate, key).value, i);
  }

  lemma OtherObjects(hash: Hash, a: seq<Field>, b: seq<Field>, key: Str)
    requires key !in OBJECT_ITEMS && forall k :: k != key ==> Get(a, k) == Get(b, k)
    ensures Gather(kind => ObjectItem(hash, a, kind), OBJECT_ITEMS)
         == Gather(kind => ObjectItem(hash, b, kind), OBJECT_ITEMS)
  {
    hide Get, Gather;
    forall i | 0 <= i < |OBJECT_ITEMS|
      ensures ObjectItem(hash, a, OBJECT_ITEMS[i]) == ObjectItem(hash, b, OBJECT_ITEMS[i])
    {
      assert OBJECT_ITEMS[i] in OBJECT_ITEMS;
    }
    GatherAlike(kind => ObjectItem(hash, a, kind), kind => ObjectItem(hash, b, kind), OBJECT_ITEMS, OBJECT_ITEMS);
  }

  lemma OtherField(item: Json -> Option<seq<Item>>, a: seq<Field>, b: seq<Field>, key: Str)
    requires Get(a, key) == Get(b, key)
    ensures GatherField(item, a, key) == GatherField(item, b, key)
  {
  }

  lemma ListKeysApart()
    ensures Ascii("policy_decisions") !in OBJECT_ITEMS && Ascii("approvals") !in OBJECT_ITEMS
    ensures Ascii("policy_decisions") != Ascii("approvals")
  {
    assert Ascii("policy_decisions")[1] == 111 && Ascii("approvals")[0] == 97 && Ascii("policy_decisions")[0] == 112;
    assert Ascii("signature")[0] == 115 && Ascii("sbom")[0] == 115 && Ascii("provenance")[1] == 114;
    assert Ascii("provenance")[0] == 112;
  }

  lemma DecisionsShow(hash: Hash, show: Show, a: seq<Field>) returns (b: seq<Field>)
    requires WellFormed(JObj(a)) && SeesOrder(show) && Items(hash, show, a).Some?
    requires !ElementsAre(j => DecisionIs(Rigid, j), a, Ascii("policy_decisions"))
    ensures SameMeaning(JObj(a), JObj(b)) && Items(hash, show, b) != Items(hash, show, a)
  {
    hide SameMeaning, WellFormed, Get, DecisionIs, DecisionItem, ApprovalItem, ObjectItem, Gather, GatherField, Ascii;
    hide SeesOrder, Elements;
    var key, item := Ascii("policy_decisions"), j => DecisionItem(hash, show, j);
    var elements := Elements(a, key).value;
    var i :| 0 <= i < |elements| && !DecisionIs(Rigid, elements[i]);
    ElementWellFormed(a, key, i);
    GatheredEach(item, a, key, i);
    var j := DecisionShows(hash, show, elements[i]);
    b := ElementShows(item, a, key, i, j);
    ListKeysApart();
    OtherObjects(hash, a, b, key);
    OtherField(j => ApprovalItem(hash, show, j), a, b, Ascii("approvals"));
    var objects := Gather(kind => ObjectItem(hash, a, kind), OBJECT_ITEMS);
    var approvals := GatherField(j => ApprovalItem(hash, show, j), a, Ascii("approvals"));
    BothLaws(objects, GatherField(item, a, key), approvals);
    BothLaws(objects, GatherField(item, b, key), approvals);
    BothCancels(objects, GatherField(item, a, key), GatherField(item, b, key), approvals);
  }

  lemma ApprovalsShow(hash: Hash, show: Show, a: seq<Field>) returns (b: seq<Field>)
    requires WellFormed(JObj(a)) && SeesOrder(show) && Items(hash, show, a).Some?
    requires !ElementsAre(j => ApprovalIs(Rigid, j), a, Ascii("approvals"))
    ensures SameMeaning(JObj(a), JObj(b)) && Items(hash, show, b) != Items(hash, show, a)
  {
    hide SameMeaning, WellFormed, Get, ApprovalIs, DecisionItem, ApprovalItem, ObjectItem, Gather, GatherField, Ascii;
    hide SeesOrder, Elements;
    var key, item := Ascii("approvals"), j => ApprovalItem(hash, show, j);
    var elements := Elements(a, key).value;
    var i :| 0 <= i < |elements| && !ApprovalIs(Rigid, elements[i]);
    ElementWellFormed(a, key, i);
    GatheredEach(item, a, key, i);
    var j := ApprovalShows(hash, show, elements[i]);
    b := ElementShows(item, a, key, i, j);
    ListKeysApart();
    OtherObjects(hash, a, b, key);
    OtherField(j => DecisionItem(hash, show, j), a, b, Ascii("policy_decisions"));
    var before := Both(Gather(kind => ObjectItem(hash, a, kind), OBJECT_ITEMS),
                       GatherField(j => DecisionItem(hash, show, j), a, Ascii("policy_decisions")));
    BothCancels(before, GatherField(item, a, key), GatherField(item, b, key), None);
  }

  lemma ElementWellFormed(candidate: seq<Field>, key: Str, i: nat)
    requires WellFormed(JObj(candidate)) && Elements(candidate, key).Some?
    requires i < |Elements(candidate, key).value|
    ensures WellFormed(Elements(candidate, key).value[i])
  {
    hide Get;
    GetMeans(candidate, key);
  }

  /**
   For a candidate whose items can be collected, no reordering of keys shows in the image or the items
   if and only if no quoted value holds an object with two or more keys.
   */
  lemma OrderFreeExactly(hash: Hash, show: Show, a: seq<Field>)
    requires WellFormed(JObj(a)) && SeesOrder(show) && Items(hash, show, a).Some?
    ensures OrderFree(hash, show, a) <==> Quotes(Rigid, a)
  {
    hide SameMeaning, WellFormed, Items, ShowField, ElementsAre, FieldIs, SeesOrder;
    if Quotes(Rigid, a) {
      forall b | SameMeaning(JObj(a), JObj(b))
        ensures ShowField(show, b, Ascii("image")) == ShowField(show, a, Ascii("image"))
        ensures Items(hash, show, b) == Items(hash, show, a)
      {
        ItemsFollowMeaning(hash, show, a, b);
      }
    } else {
      var b;
      if !FieldIs(Rigid, a, Ascii("image")) {
        b := FieldShows(show, a, Ascii("image"));
      } else if !ElementsAre(j => DecisionIs(Rigid, j), a, Ascii("policy_decisions")) {
        b := DecisionsShow(hash, show, a);
      } else {
        b := ApprovalsShow(hash, show, a);
      }
    }
  }

  /** With rigid quotes, bundle digests agree exactly when the candidates mean the same. */
  lemma BundleDigestIffSameCandidate(
    hash: Hash, show: Show, a: seq<Field>, b: seq<Field>, x: EvidenceBundle, y: EvidenceBundle)
    requires Built(hash, show, a, x) && Built(hash, show, b, y) && Quotes(Rigid, a)
    requires CollisionFree(hash, InPlay(a, b, x, y))
    ensures x.digest == y.digest <==> Meaning(JObj(a)) == Meaning(JObj(b))
  {
    hide Meaning, Items, WellFormed;
    BundleCommits(hash, show, a, b, x, y);
    if Meaning(JObj(a)) == Meaning(JObj(b)) {
      ItemsFollowMeaning(hash, show, a, b);
    }
  }

  const ONE_ORDER := JObj([(Ascii("a"), JInt(1)), (Ascii("b"), JInt(2))])
  const OTHER_ORDER := JObj([(Ascii("b"), JInt(2)), (Ascii("a"), JInt(1))])

  /**
   An object as image shows its key order: two candidates that mean the same get different bundle
   digests. A candidate that passes its schema cannot do this, as its quotes are text.
   */
  lemma KeyOrderShows(hash: Hash, show: Show, x: EvidenceBundle, y: EvidenceBundle)
    requires show(ONE_ORDER) != show(OTHER_ORDER)
    requires Build(hash, show, [(Ascii("image"), ONE_ORDER)]) == Some(x)
    requires Build(hash, show, [(Ascii("image"), OTHER_ORDER)]) == Some(y)
    requires CollisionFree(hash, InPlay([(Ascii("image"), ONE_ORDER)], [(Ascii("image"), OTHER_ORDER)], x, y))
    ensures Meaning(JObj([(Ascii("image"), ONE_ORDER)])) == Meaning(JObj([(Ascii("image"), OTHER_ORDER)]))
    ensures x.digest != y.digest
  {
    hide Meaning, Items, Digest, Manifest, InPlay, CollisionFree;
    var a, b := [(Ascii("image"), ONE_ORDER)], [(Ascii("image"), OTHER_ORDER)];
    OrdersMeanTheSame();
    PointwiseMeaning(a, b);
    OneFieldMeaning(a);
    OneFieldMeaning(b);
    BundleCommits(hash, show, a, b, x, y);
  }

  lemma OneFieldMeaning(fields: seq<Field>)
    requires |fields| == 1 && WellFormed(fields[0].1)
    ensures WellFormed(JObj(fields)) && Meaning(JObj(fields)) == VObj(FieldsMeaning(fields))
  {
  }

  lemma OrdersMeanTheSame()
    ensures WellFormed(ONE_ORDER) && WellFormed(OTHER_ORDER) && Meaning(ONE_ORDER) == Meaning(OTHER_ORDER)
  {
    hide FieldsMeaning;
    KeysApart("a", "b");
    var one, other := ONE_ORDER.fields, OTHER_ORDER.fields;
    assert one[0] == other[1] && one[1] == other[0];
    SameFieldsSameMeaning(one, other);
  }
}
