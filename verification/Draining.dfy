/** Progress of the publisher when nothing fails: how many batches empty the outbox. */
module Draining {
  import opened Options
  import opened Ordering
  import opened Delivery
  import opened Publisher
  import opened Actors
  import Runs

  function Messages(records: seq<Record>): (r: seq<Message>)
    requires forall x :: x in records ==> Route(x.eventType).Some?
    ensures |r| == |records|
    ensures forall i :: 0 <= i < |records| ==> r[i] == MessageOf(records[i])
  {
    seq(|records|, i requires 0 <= i < |records| => assert records[i] in records; MessageOf(records[i]))
  }

  function Ids(records: seq<Record>): (r: set<string>) {
    set x | x in records :: x.eventId
  }

  /** The state after these records were published and marked. */
  function After(s: State, sent: seq<Record>): (r: State)
    requires AllRoutable(sent)
  {
    s.(stream := s.stream + Messages(sent), marked := s.marked + Ids(sent))
  }

  lemma AfterConcat(s: State, a: seq<Record>, b: seq<Record>)
    requires AllRoutable(a) && AllRoutable(b)
    ensures AllRoutable(a + b) && After(After(s, a), b) == After(s, a + b)
  {
  }

  lemma AfterNothing(s: State)
    ensures After(s, []) == s
  {
  }

  predicate AllRoutable(rows: seq<Record>) {
    forall x :: x in rows ==> Route(x.eventType).Some?
  }

  function BatchesAfter(batches: map<nat, Batch>, id: nat, todo: seq<Record>): (r: map<nat, Batch>) {
    if todo == [] then batches - {id} else batches[id := Batch(todo, false)]
  }

  lemma PairEffect(id: nat, s: State)
    requires id in s.batches && !s.batches[id].sent && s.batches[id].todo != []
    requires Route(s.batches[id].todo[0].eventType).Some?
    ensures
      var todo := s.batches[id].todo;
      Run(s, [Publish(id, true, true), Mark(id, true, true)]) ==
      After(s, [todo[0]]).(batches := BatchesAfter(s.batches, id, todo[1..]))
  {
    var todo := s.batches[id].todo;
    var p, m := Publish(id, true, true), Mark(id, true, true);
    var mid := Do(s, p);
    assert mid == s.(stream := s.stream + [MessageOf(todo[0])], batches := s.batches[id := Batch(todo, true)]);
    assert [p, m][1..] == [m];
    assert Runs.Run(Do, s, [p, m]) == Runs.Run(Do, mid, [m]);
    OneStep(mid, m);
    assert Messages([todo[0]]) == [MessageOf(todo[0])] && Ids([todo[0]]) == {todo[0].eventId};
    assert s.batches[id := Batch(todo, true)] - {id} == s.batches - {id};
    assert |todo| > 1 ==> s.batches[id := Batch(todo, true)][id := Batch(todo[1..], false)]
                          == s.batches[id := Batch(todo[1..], false)];
  }

  /** Publishing and marking the first k records of a batch, in closed form. */
  lemma {:induction false} PairsEffect(id: nat, s: State, records: seq<Record>, k: nat)
    requires id in s.batches && s.batches[id] == Batch(records, false) && AllRoutable(records)
    requires k <= |records| && records != []
    ensures Run(s, Pairs(id, k)) ==
            After(s, records[..k]).(batches := BatchesAfter(s.batches, id, records[k..]))
  {
    if k == 0 {
      AfterNothing(s);
      assert records[..0] == [] && records[0..] == records;
      assert s.batches[id := Batch(records, false)] == s.batches;
    } else {
      PairsEffect(id, s, records, k - 1);
      Runs.Concat(Do, s, Pairs(id, k - 1), [Publish(id, true, true), Mark(id, true, true)]);
      PairsExtend(id, s, records, k);
    }
  }

  lemma PairsExtend(id: nat, s: State, records: seq<Record>, k: nat)
    requires 0 < k <= |records| && AllRoutable(records)
    ensures
      var t := After(s, records[..k - 1]).(batches := BatchesAfter(s.batches, id, records[k - 1..]));
      Run(t, [Publish(id, true, true), Mark(id, true, true)]) ==
      After(s, records[..k]).(batches := BatchesAfter(s.batches, id, records[k..]))
  {
    var todo := records[k - 1..];
    var t := After(s, records[..k - 1]).(batches := BatchesAfter(s.batches, id, todo));
    assert todo[0] in records;
    PairEffect(id, t);
    assert todo[1..] == records[k..];
    assert records[..k] == records[..k - 1] + [todo[0]];
    AfterConcat(s, records[..k - 1], [todo[0]]);
    assert s.batches[id := Batch(todo, false)] - {id} == s.batches - {id};
    assert s.batches[id := Batch(todo, false)][id := Batch(records[k..], false)]
           == s.batches[id := Batch(records[k..], false)];
  }

  /** One batch of a lone poller in which no call fails. */
  function QuietBatch(id: nat, limit: nat, s: State): (r: State) {
    var records := Snapshot(s.rows, s.marked, limit);
    Run(s, [Fetch(id, limit, records)] + BatchActions(id, |records|, None, false))
  }

  lemma FetchedBatchEffect(id: nat, limit: nat, s: State, records: seq<Record>)
    requires id !in s.batches && AllRoutable(records) && IsSnapshot(s.rows, s.marked, limit, records)
    ensures Run(Do(s, Fetch(id, limit, records)), Pairs(id, |records|)) == After(s, records)
  {
    var t := Do(s, Fetch(id, limit, records));
    if records == [] {
      AfterNothing(s);
    } else {
      assert t == s.(batches := s.batches[id := Batch(records, false)]);
      PairsEffect(id, t, records, |records|);
      assert records[..|records|] == records && records[|records|..] == [];
      assert s.batches[id := Batch(records, false)] - {id} == s.batches;
    }
  }

  lemma SnapshotRoutable(rows: seq<Record>, marked: set<string>, limit: nat)
    requires AllRoutable(rows) && DistinctIds(rows)
    ensures AllRoutable(Snapshot(rows, marked, limit))
  {
    SnapshotAnswers(rows, marked, limit);
  }

  lemma QuietBatchEffect(id: nat, limit: nat, s: State)
    requires limit > 0 && id !in s.batches && AllRoutable(s.rows) && DistinctIds(s.rows)
    ensures AllRoutable(Snapshot(s.rows, s.marked, limit))
    ensures QuietBatch(id, limit, s) == After(s, Snapshot(s.rows, s.marked, limit))
  {
    var records := Snapshot(s.rows, s.marked, limit);
    SnapshotAnswers(s.rows, s.marked, limit);
    SnapshotRoutable(s.rows, s.marked, limit);
    Runs.Concat(Do, s, [Fetch(id, limit, records)], Pairs(id, |records|));
    assert BatchActions(id, |records|, None, false) == Pairs(id, |records|);
    OneStep(s, Fetch(id, limit, records));
    FetchedBatchEffect(id, limit, s, records);
  }

  ghost function PendingSet(s: State): set<Record> {
    set r | r in s.rows && r.eventId !in s.marked
  }

  lemma PendingCount(s: State)
    requires DistinctIds(s.rows)
    ensures |Pending(s.rows, s.marked)| == |PendingSet(s)|
  {
    var p := Pending(s.rows, s.marked);
    PendingDistinct(s.rows, s.marked);
    ElementCount(p);
    forall r
      ensures r in p <==> r in PendingSet(s)
    {
      PendingMembers(s.rows, s.marked, r);
    }
    assert (set r | r in p) == PendingSet(s);
  }

  /** `sent` are the min(quota, pending) rows that left the outbox between s and t, each published once. */
  ghost predicate Drained(s: State, t: State, sent: seq<Record>, quota: nat) {
    && Distinct(sent) && AllRoutable(sent)
    && t == After(s, sent)
    && (set r | r in sent) <= PendingSet(s)
    && PendingSet(t) == PendingSet(s) - (set r | r in sent)
    && |sent| == (if quota < |PendingSet(s)| then quota else |PendingSet(s)|)
  }

  ghost predicate DrainedUpTo(s: State, t: State, quota: nat) {
    exists sent :: Drained(s, t, sent, quota)
  }

  lemma QuietBatchDrains(id: nat, limit: nat, s: State)
    requires limit > 0 && id !in s.batches && AllRoutable(s.rows) && DistinctIds(s.rows)
    ensures Drained(s, QuietBatch(id, limit, s), Snapshot(s.rows, s.marked, limit), limit)
  {
    hide QuietBatch, Snapshot, Messages, Pending, AllRoutable;
    var records := Snapshot(s.rows, s.marked, limit);
    var t := QuietBatch(id, limit, s);
    QuietBatchEffect(id, limit, s);
    SnapshotAnswers(s.rows, s.marked, limit);
    PendingCount(s);
    var taken := set r | r in records;
    ElementCount(records);
    forall r | r in PendingSet(s)
      ensures r in PendingSet(t) <==> r !in taken
    {
      forall x | x in records && x != r
        ensures x.eventId != r.eventId
      {
        OtherRowOtherId(s.rows, x, r);
      }
    }
    assert taken <= PendingSet(s);
  }

  lemma OtherRowOtherId(rows: seq<Record>, a: Record, b: Record)
    requires DistinctIds(rows) && a in rows && b in rows && a != b
    ensures a.eventId != b.eventId
  {
  }

  function QuietBatches(id: nat, limit: nat, s: State, n: nat): (r: State) {
    if n == 0 then s else QuietBatch(id, limit, QuietBatches(id, limit, s, n - 1))
  }

  lemma DistinctConcat(a: seq<Record>, b: seq<Record>)
    requires Distinct(a) && Distinct(b) && forall r :: r in b ==> r !in a
    ensures Distinct(a + b)
  {
    forall i, j | 0 <= i < j < |a + b|
      ensures (a + b)[i] != (a + b)[j]
    {
      if i < |a| <= j {
        assert a[i] in a && b[j - |a|] in b;
      }
    }
  }

  lemma DrainedTwice(s: State, mid: State, t: State, a: seq<Record>, b: seq<Record>, m: nat, n: nat)
    requires Drained(s, mid, a, m) && Drained(mid, t, b, n)
    ensures Drained(s, t, a + b, m + n)
  {
    hide After, PendingSet, AllRoutable, Distinct;
    var inA, inB := set r | r in a, set r | r in b;
    AfterConcat(s, a, b);
    ElementCount(a);
    assert |PendingSet(s) - inA| == |PendingSet(s)| - |inA|;
    assert (set r | r in a + b) == inA + inB;
    assert forall r :: r in b ==> r in inB && r !in inA;
    assert forall r :: r in b ==> r !in a;
    DistinctConcat(a, b);
    assert inA + inB <= PendingSet(s);
    assert PendingSet(t) == PendingSet(s) - (inA + inB);
  }

  lemma DrainStep(id: nat, limit: nat, s: State, mid: State, quota: nat)
    requires limit > 0 && id !in s.batches && AllRoutable(s.rows) && DistinctIds(s.rows)
    requires DrainedUpTo(s, mid, quota)
    ensures DrainedUpTo(s, QuietBatch(id, limit, mid), quota + limit)
  {
    hide QuietBatch, Snapshot, PendingSet;
    var before :| Drained(s, mid, before, quota);
    var records := Snapshot(mid.rows, mid.marked, limit);
    var t := QuietBatch(id, limit, mid);
    QuietBatchDrains(id, limit, mid);
    DrainedTwice(s, mid, t, before, records, quota, limit);
  }

  lemma DrainNothing(s: State)
    ensures DrainedUpTo(s, s, 0)
  {
    AfterNothing(s);
    assert Drained(s, s, [], 0);
  }

  function Quota(limit: nat, n: nat): (r: nat) {
    if n == 0 then 0 else Quota(limit, n - 1) + limit
  }

  lemma {:induction false} QuotaIsProduct(limit: nat, n: nat)
    ensures Quota(limit, n) == n * limit
  {
    if n > 0 {
      QuotaIsProduct(limit, n - 1);
      assert n * limit == (n - 1) * limit + limit;
    }
  }

  lemma {:induction false} DrainsFrom(id: nat, limit: nat, s: State, n: nat)
    requires limit > 0 && id !in s.batches && AllRoutable(s.rows) && DistinctIds(s.rows)
    ensures DrainedUpTo(s, QuietBatches(id, limit, s, n), Quota(limit, n))
  {
    hide QuietBatch, DrainedUpTo, AllRoutable, DistinctIds;
    if n == 0 {
      DrainNothing(s);
    } else {
      DrainsFrom(id, limit, s, n - 1);
      DrainStep(id, limit, s, QuietBatches(id, limit, s, n - 1), Quota(limit, n - 1));
    }
  }

  lemma DrainedEmpties(s: State, t: State, quota: nat)
    requires DrainedUpTo(s, t, quota)
    ensures PendingSet(t) == {} <==> |PendingSet(s)| <= quota
  {
    var sent :| Drained(s, t, sent, quota);
    var gone := set r | r in sent;
    ElementCount(sent);
    assert |PendingSet(s) - gone| == |PendingSet(s)| - |gone|;
  }

  /**
   After n quiet batches exactly min(pending, n * limit) of the pending rows have left the outbox, and
   the broker has received each of them once; so ceil(pending / limit) batches empty it and fewer do not.
   */
  lemma DrainsInBatches(id: nat, limit: nat, s: State, n: nat)
    requires limit > 0 && id !in s.batches && AllRoutable(s.rows) && DistinctIds(s.rows)
    ensures DrainedUpTo(s, QuietBatches(id, limit, s, n), n * limit)
    ensures PendingSet(QuietBatches(id, limit, s, n)) == {} <==> |PendingSet(s)| <= n * limit
  {
    hide QuietBatches, DrainedUpTo, PendingSet;
    DrainsFrom(id, limit, s, n);
    QuotaIsProduct(limit, n);
    DrainedEmpties(s, QuietBatches(id, limit, s, n), n * limit);
  }
}
