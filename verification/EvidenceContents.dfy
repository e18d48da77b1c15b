/** What the bytes behind an evidence record say about its call. */
module EvidenceContents {
  import opened Options
  import opened Ordering
  import opened Json
  import opened JsonRoundTrip
  import opened CanonicalJson
  import opened JsonText
  import opened Rigidity
  import opened Hashing
  import opened Capability
  import opened Evidence
  import opened Executor
  import opened ExecutorAudit

  lemma GetMember(fields: seq<Field>, field: Field)
    requires KeysDistinct(fields) && field in fields
    ensures Get(fields, field.0) == Some(field.1)
  {
    var i :| 0 <= i < |fields| && fields[i] == field;
    GetAt(fields, i);
  }

  /** Looking up a key in an object with sorted keys finds its value, with sorted keys. */
  lemma GetSorted(fields: seq<Field>, key: Str)
    requires KeysDistinct(fields)
    ensures
      var sorted := SortKeys(JObj(fields)).fields;
      Get(sorted, key) == if Get(fields, key).Some? then Some(SortKeys(Get(fields, key).value)) else None
  {
    hide Get, SortKeys, Sort;
    var inner := SortValues(fields);
    var sorted := Sort(KeyLess, inner);
    ObjectSorts(fields);
    assert forall i :: 0 <= i < |fields| ==> inner[i].0 == fields[i].0;
    assert KeysDistinct(inner);
    SortedFields(inner);
    PutAbsent(fields, key);
    PutAbsent(sorted, key);
    if Get(fields, key).Some? {
      var i :| 0 <= i < |fields| && fields[i].0 == key;
      GetAt(fields, i);
      assert inner[i] in sorted;
      GetMember(sorted, inner[i]);
    } else {
      forall i | 0 <= i < |sorted|
        ensures sorted[i].0 != key
      {
        assert sorted[i] in sorted && sorted[i] in inner;
      }
    }
  }

  lemma ObjectSorts(fields: seq<Field>)
    ensures SortKeys(JObj(fields)) == JObj(Sort(KeyLess, SortValues(fields)))
  {
  }

  lemma SingleSorts(key: Str, value: Json)
    ensures SortKeys(JObj([(key, value)])) == JObj([(key, SortKeys(value))])
  {
    hide SortKeys;
    var fields := [(key, value)];
    ObjectSorts(fields);
    var inner := SortValues(fields);
    assert inner == [(key, SortKeys(value))];
    assert inner[1..] == [] && Sort(KeyLess, inner[1..]) == [];
  }

  /** The payload names the tool, the arguments and the outcome of the call, and nothing else. */
  ghost predicate Says(fields: seq<Field>, q: Request, r: ExecutionResult) {
    && Get(fields, Ascii("tool")) == Some(JStr(q.tool))
    && Get(fields, Ascii("args")).Some? && SameMeaning(Get(fields, Ascii("args")).value, JObj(q.args))
    && Get(fields, Ascii("detail")).Some? && Get(fields, Ascii("detail")).value.JObj?
    && var detail := Get(fields, Ascii("detail")).value.fields;
    && |detail| == 1
    && (!r.allowed ==> detail[0] == (Ascii("denied"), JStr(r.reason)))
    && (r.allowed && r.output.Some? ==>
          detail[0].0 == Ascii("output") && SameMeaning(detail[0].1, JObj(r.output.value)))
    && (forall k :: Get(fields, k).Some? ==> k in [Ascii("tool"), Ascii("args"), Ascii("detail")])
  }

  lemma RecordKeysApart()
    ensures Ascii("tool") != Ascii("args") && Ascii("tool") != Ascii("detail") && Ascii("args") != Ascii("detail")
  {
    assert Ascii("tool")[0] == 116 && Ascii("args")[0] == 97 && Ascii("detail")[0] == 100;
  }

  ghost predicate ProperCall(q: Request, r: ExecutionResult) {
    && WellFormed(JObj(q.args))
    && (r.output.Some? ==> WellFormed(JObj(r.output.value)))
    && (r.allowed <==> r.output.Some?)
  }

  lemma DetailIsWellFormed(q: Request, r: ExecutionResult)
    requires ProperCall(q, r)
    ensures WellFormed(DetailJson(DetailOf(r)))
  {
  }

  lemma RecordGets(q: Request, detail: Detail, key: Str)
    ensures
      Get(RecordJson(q, detail).fields, key) ==
      if key == Ascii("tool") then Some(JStr(q.tool))
      else if key == Ascii("args") then Some(JObj(q.args))
      else if key == Ascii("detail") then Some(DetailJson(detail))
      else None
  {
    hide Ascii, DetailJson;
    var s := RecordJson(q, detail).fields;
    assert s == [s[0]] + ([s[1]] + ([s[2]] + []));
    GetNext(s[0], [s[1]] + ([s[2]] + []), key);
    GetNext(s[1], [s[2]] + [], key);
    GetNext(s[2], [], key);
  }

  lemma RecordIsWellFormed(q: Request, r: ExecutionResult)
    requires ProperCall(q, r)
    ensures WellFormed(RecordJson(q, DetailOf(r))) && KeysDistinct(RecordJson(q, DetailOf(r)).fields)
  {
    hide Ascii, DetailJson;
    RecordKeysApart();
    DetailIsWellFormed(q, r);
    var fields := RecordJson(q, DetailOf(r)).fields;
    assert Printable(PLAIN, fields[0].1) && Printable(PLAIN, fields[1].1) && Printable(PLAIN, fields[2].1);
    assert DistinctKeys(PLAIN, fields);
  }

  lemma DetailSorts(r: ExecutionResult)
    requires r.allowed <==> r.output.Some?
    ensures SortKeys(DetailJson(DetailOf(r))) ==
      if r.allowed then JObj([(Ascii("output"), SortKeys(JObj(r.output.value)))])
      else JObj([(Ascii("denied"), JStr(r.reason))])
  {
    hide Ascii;
    if r.allowed {
      SingleSorts(Ascii("output"), JObj(r.output.value));
    } else {
      SingleSorts(Ascii("denied"), JStr(r.reason));
    }
  }

  /** The payload of a call reads back as an object that says what was called and how it ended. */
  lemma PayloadSays(q: Request, r: ExecutionResult)
    requires ProperCall(q, r)
    ensures Says(SortKeys(RecordJson(q, DetailOf(r))).fields, q, r)
  {
    hide Ascii, Get, SortKeys, DetailJson, DetailOf, SameMeaning, RecordJson;
    RecordIsObject(q, r);
    var record := RecordJson(q, DetailOf(r));
    var fields := SortKeys(record).fields;
    RecordIsWellFormed(q, r);
    RecordKeysApart();
    forall k
      ensures Get(fields, k) ==
        if k == Ascii("tool") then Some(SortKeys(JStr(q.tool)))
        else if k == Ascii("args") then Some(SortKeys(JObj(q.args)))
        else if k == Ascii("detail") then Some(SortKeys(DetailJson(DetailOf(r))))
        else None
    {
      GetSorted(record.fields, k);
      RecordGets(q, DetailOf(r), k);
    }
    TextSorts(q.tool);
    SortedMeansSame(JObj(q.args));
    DetailSorts(r);
    if r.allowed {
      SortedMeansSame(JObj(r.output.value));
    }
  }

  lemma RecordIsObject(q: Request, r: ExecutionResult)
    ensures RecordJson(q, DetailOf(r)).JObj? && SortKeys(RecordJson(q, DetailOf(r))).JObj?
  {
  }

  lemma TextSorts(s: Str)
    ensures SortKeys(JStr(s)) == JStr(s)
  {
  }

  lemma SortedMeansSame(j: Json)
    requires WellFormed(j)
    ensures SameMeaning(SortKeys(j), j)
  {
    SortingKeepsMeaning(j);
  }

  function SortedRecord(q: Request, detail: Detail): (r: seq<Field>) {
    [(Ascii("args"), SortKeys(JObj(q.args))), (Ascii("detail"), SortKeys(DetailJson(detail))),
     (Ascii("tool"), JStr(q.tool))]
  }

  lemma RecordSorts(q: Request, detail: Detail)
    ensures SortKeys(RecordJson(q, detail)) == JObj(SortedRecord(q, detail))
  {
    hide *;
    RecordValues(q, detail);
    ObjectSorts(RecordJson(q, detail).fields);
    var inner, sorted := SortValues(RecordJson(q, detail).fields), SortedRecord(q, detail);
    SortedRecordIsSorted(q, detail);
    SameThree(inner, sorted);
    SortIs(inner, sorted);
  }

  lemma RecordValues(q: Request, detail: Detail)
    ensures RecordJson(q, detail).JObj?
    ensures
      var inner, sorted := SortValues(RecordJson(q, detail).fields), SortedRecord(q, detail);
      |sorted| == 3 && inner == [sorted[2], sorted[0], sorted[1]] && KeysDistinct(inner)
  {
    hide SortKeys, DetailJson, Ascii;
    TextSorts(q.tool);
    RecordKeysApart();
    var inner, sorted := SortValues(RecordJson(q, detail).fields), SortedRecord(q, detail);
    assert inner[0] == sorted[2] && inner[1] == sorted[0] && inner[2] == sorted[1];
  }

  lemma SortedRecordIsSorted(q: Request, detail: Detail)
    ensures StrictlySorted(KeyLess, SortedRecord(q, detail))
  {
    hide SortKeys, DetailJson, Ascii, LexLess;
    RecordKeyOrder();
  }

  lemma SameThree(a: seq<Field>, b: seq<Field>)
    requires |b| == 3 && a == [b[2], b[0], b[1]]
    ensures forall x :: x in a <==> x in b
  {
    assert a[0] == b[2] && a[1] == b[0] && a[2] == b[1];
  }

  lemma RecordKeyOrder()
    ensures LexLess(Ascii("args"), Ascii("detail")) && LexLess(Ascii("args"), Ascii("tool"))
    ensures LexLess(Ascii("detail"), Ascii("tool"))
  {
    hide LexLess;
    FirstCharDecides(Ascii("args"), Ascii("detail"));
    FirstCharDecides(Ascii("args"), Ascii("tool"));
    FirstCharDecides(Ascii("detail"), Ascii("tool"));
  }

  /** The text of a payload, character for character: spaced, with sorted keys, beyond ASCII as it is. */
  lemma RecordTextIs(q: Request, detail: Detail)
    ensures RecordText(q, detail) ==
      Ascii("{")
      + (Member(true, "args", Print(Style(false, true), SortKeys(JObj(q.args)))) + Ascii(", ")
         + (Member(true, "detail", Print(Style(false, true), SortKeys(DetailJson(detail)))) + Ascii(", ")
            + Member(true, "tool", PrintStr(Style(false, true), q.tool))))
      + Ascii("}")
  {
    RecordSorts(q, detail);
    hide SortKeys, PrintField, PrintStr, Member, DetailJson;
    var s := SortedRecord(q, detail);
    MemberIsField(SPACED, "args", s[0].1);
    MemberIsField(SPACED, "detail", s[1].1);
    MemberIsField(SPACED, "tool", s[2].1);
    CommaIsSeparator(SPACED);
    MoreFields(SPACED, s[0], [s[1], s[2]]);
    MoreFields(SPACED, s[1], [s[2]]);
    assert s == [s[0]] + [s[1], s[2]];
    assert [s[1]] + [s[2]] == [s[1], s[2]];
  }

  /** After any history, the bytes an evidence record resolves to say what its call was and how it ended. */
  lemma EvidenceSays(cfg: Config, s: State, events: seq<Event>, i: nat) returns (fields: seq<Field>)
    requires Opened(s) && i < |History(cfg, s, events).audit|
    requires CollisionFree(cfg.hash, InPlay(History(cfg, s, events).puts))
    requires
      var entry := History(cfg, s, events).audit[i];
      WellFormed(JObj(entry.request.args)) &&
      (entry.result.output.Some? ==> WellFormed(JObj(entry.result.output.value)))
    ensures
      var s' := History(cfg, s, events);
      var entry := s'.audit[i];
      var found := ResolveIn(s'.blobs, entry.result.evidence.ref);
      && found.Found? && LoadsBytes(found.data) == Some(JObj(fields))
      && Says(fields, entry.request, entry.result)
  {
    hide History, RecordText, PayloadOf, LoadsBytes, Says, SortKeys, RecordJson, DetailOf, WellFormed;
    EvidenceIsRecoverable(cfg, s, events, i);
    var entry := History(cfg, s, events).audit[i];
    RecordIsWellFormed(entry.request, entry.result);
    RecordIsObject(entry.request, entry.result);
    ExecutorAudit.PayloadReadsBack(entry);
    PayloadSays(entry.request, entry.result);
    fields := SortKeys(RecordJson(entry.request, DetailOf(entry.result))).fields;
  }
}
