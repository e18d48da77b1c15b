/** With one poller and commits in time order, events reach the broker in time order. */
module DeliveryOrder {
  import opened Delivery
  import Races = StatusRaces

  ghost predicate RowsInOrder(rows: seq<Record>) {
    forall i, j :: 0 <= i < j < |rows| ==> rows[i].occurredAt <= rows[j].occurredAt
  }

  ghost predicate StreamInOrder(stream: seq<Message>) {
    forall i, j :: 0 <= i < j < |stream| ==> stream[i].payload.occurredAt <= stream[j].payload.occurredAt
  }

  ghost predicate Unmarked(s: State, r: Record) {
    r in s.rows && r.eventId !in s.marked
  }

  /** The batch is the sorted front of the unpublished rows. */
  ghost predicate FrontBatch(s: State, todo: seq<Record>) {
    && (forall i :: 0 <= i < |todo| ==> Unmarked(s, todo[i]))
    && (forall i, j :: 0 <= i < j < |todo| ==>
          todo[i].eventId != todo[j].eventId && todo[i].occurredAt <= todo[j].occurredAt)
    && (forall r, i :: Unmarked(s, r) && r !in todo && 0 <= i < |todo| ==> todo[i].occurredAt <= r.occurredAt)
  }

  ghost predicate PublishedFirst(s: State) {
    forall i, r :: 0 <= i < |s.stream| && Unmarked(s, r) ==> s.stream[i].payload.occurredAt <= r.occurredAt
  }

  ghost predicate OrderInv(s: State) {
    && RowsInOrder(s.rows) && StreamInOrder(s.stream) && PublishedFirst(s)
    && (forall p :: p in s.batches ==> p == 0 && FrontBatch(s, s.batches[p].todo))
  }

  /** One poller, and no commit earlier than a committed row; everything else is unrestricted. */
  ghost predicate OrderedStep(s: State, a: Action) {
    && (a.Fetch? ==> a.poller == 0)
    && (a.Domain? ==>
          var rows := Do(s, a).rows;
          forall i :: 0 <= i < |s.rows| < |rows| ==> s.rows[i].occurredAt <= rows[|s.rows|].occurredAt)
  }

  ghost predicate OrderedRun(s: State, actions: seq<Action>)
    decreases |actions|
  {
    actions == [] || (OrderedStep(s, actions[0]) && OrderedRun(Do(s, actions[0]), actions[1..]))
  }

  /** A new row is no earlier than any message or batch record, since those stem from earlier rows. */
  lemma CommitStep(s: State, t: State)
    requires PublisherInv(s) && OrderInv(s)
    requires t == s.(domain := t.domain, rows := t.rows)
    requires |t.rows| == |s.rows| + 1 && t.rows[..|s.rows|] == s.rows
    requires forall i :: 0 <= i < |s.rows| ==> s.rows[i].occurredAt <= t.rows[|s.rows|].occurredAt
    ensures OrderInv(t)
  {
    var last := t.rows[|s.rows|];
    assert t.rows == s.rows + [last];
    assert forall r :: Unmarked(t, r) ==> Unmarked(s, r) || r == last;
    forall r | r in s.rows
      ensures r.occurredAt <= last.occurredAt
    {
      var k :| 0 <= k < |s.rows| && s.rows[k] == r;
    }
    assert PublishedFirst(t) by {
      forall i | 0 <= i < |t.stream|
        ensures t.stream[i].payload.occurredAt <= last.occurredAt
      {
        assert FromRow(s.rows, s.stream[i]);
      }
    }
    forall p | p in t.batches
      ensures FrontBatch(t, t.batches[p].todo)
    {
      assert FrontBatch(s, s.batches[p].todo);
      assert forall i :: 0 <= i < |s.batches[p].todo| ==> Unmarked(s, s.batches[p].todo[i]);
    }
  }

  /** The first record of a batch is an earliest unpublished row. */
  lemma HeadIsFirst(s: State, todo: seq<Record>)
    requires FrontBatch(s, todo) && todo != []
    ensures Unmarked(s, todo[0]) && forall r :: Unmarked(s, r) ==> todo[0].occurredAt <= r.occurredAt
  {
  }

  lemma StreamExtends(s: State, t: State, m: Message, head: Record)
    requires StreamInOrder(s.stream) && PublishedFirst(s)
    requires t.rows == s.rows && t.marked == s.marked && t.stream == s.stream + [m]
    requires m.payload.occurredAt == head.occurredAt
    requires Unmarked(s, head) && forall r :: Unmarked(s, r) ==> head.occurredAt <= r.occurredAt
    ensures StreamInOrder(t.stream) && PublishedFirst(t)
  {
    assert forall r :: Unmarked(t, r) <==> Unmarked(s, r);
  }

  lemma SendStep(s: State, delivered: bool, reported: bool)
    requires PublisherInv(s) && OrderInv(s)
    ensures OrderInv(DoPublish(s, 0, delivered, reported))
  {
    var t := DoPublish(s, 0, delivered, reported);
    if t != s {
      hide FromRow, MarkedRow, SentAs, FrontBatch, PublishedFirst, StreamInOrder, RowsInOrder;
      var todo := s.batches[0].todo;
      HeadIsFirst(s, todo);
      assert BatchOk(s.rows, s.stream, s.batches[0]) && GoodRecord(todo[0]);
      if delivered {
        StreamExtends(s, t, MessageOf(todo[0]), todo[0]);
      }
      SameRows(s, t);
    }
  }

  /** Order of rows, batches and unpublished rows depends on the outbox table alone. */
  lemma SameRows(s: State, t: State)
    requires t.rows == s.rows && t.marked == s.marked
    ensures forall todo :: FrontBatch(s, todo) ==> FrontBatch(t, todo)
    ensures t.stream == s.stream && PublishedFirst(s) ==> PublishedFirst(t)
  {
    assert forall r :: Unmarked(t, r) <==> Unmarked(s, r);
    forall todo | FrontBatch(s, todo)
      ensures FrontBatch(t, todo)
    {
      assert forall i :: 0 <= i < |todo| ==> Unmarked(s, todo[i]);
    }
  }

  lemma MarkedStep(s: State, took: bool, reported: bool)
    requires OrderInv(s) && DistinctIds(s.rows)
    ensures OrderInv(DoMark(s, 0, took, reported))
  {
    var t := DoMark(s, 0, took, reported);
    if t != s {
      var todo := s.batches[0].todo;
      assert FrontBatch(s, todo) && Unmarked(s, todo[0]);
      assert forall r :: Unmarked(t, r) ==> Unmarked(s, r);
      if 0 in t.batches {
        var rest := t.batches[0].todo;
        assert rest == todo[1..];
        assert forall i :: 0 <= i < |rest| ==> rest[i] == todo[i + 1];
        forall r, i | Unmarked(t, r) && r !in rest && 0 <= i < |rest|
          ensures rest[i].occurredAt <= r.occurredAt
        {
          assert r != todo[0];
          assert r in todo ==> r in rest;
        }
        assert FrontBatch(t, rest);
      }
    }
  }

  lemma SnapshotIsFront(s: State, limit: nat, records: seq<Record>)
    requires DistinctIds(s.rows) && IsSnapshot(s.rows, s.marked, limit, records)
    ensures FrontBatch(s, records)
  {
  }

  lemma DomainOrder(s: State, d: Races.Action)
    requires Sound(s) && OrderInv(s) && OrderedStep(s, Domain(d))
    ensures OrderInv(Do(s, Domain(d)))
  {
    hide OrderInv, PublisherInv, DoDomain;
    var t := Do(s, Domain(d));
    DomainStep(s, d);
    if t.rows != s.rows {
      CommitStep(s, t);
    } else {
      SameTables(s, t);
    }
  }

  lemma FetchOrder(s: State, a: Action)
    requires DistinctIds(s.rows) && OrderInv(s) && OrderedStep(s, a) && a.Fetch?
    ensures OrderInv(Do(s, a))
  {
    hide FrontBatch, IsSnapshot, DistinctIds;
    if Do(s, a) != s {
      SnapshotIsFront(s, a.limit, a.records);
      SameTables(s, Do(s, a));
    }
  }

  lemma OtherOrder(s: State, a: Action)
    requires OrderInv(s)
    requires !a.Domain? && !a.Fetch? && (a.Publish? || a.Mark? ==> a.poller != 0)
    ensures OrderInv(Do(s, a))
  {
    hide FrontBatch, RowsInOrder, StreamInOrder, PublishedFirst;
    SameTables(s, Do(s, a));
  }

  lemma OrderStep(s: State, a: Action)
    requires Sound(s) && OrderInv(s) && OrderedStep(s, a)
    ensures OrderInv(Do(s, a))
  {
    hide OrderInv, PublisherInv, OrderedStep, DoPublish, DoMark;
    if a.Domain? {
      DomainOrder(s, a.a);
    } else if a.Fetch? {
      FetchOrder(s, a);
    } else if a.Publish? && a.poller == 0 {
      SendStep(s, a.delivered, a.reported);
    } else if a.Mark? && a.poller == 0 {
      MarkedStep(s, a.took, a.reported);
    } else {
      OtherOrder(s, a);
    }
  }

  /** Only batches may differ, and each is unchanged or the front of the same rows. */
  lemma SameTables(s: State, t: State)
    requires OrderInv(s)
    requires t.rows == s.rows && t.marked == s.marked && t.stream == s.stream
    requires forall p :: p in t.batches ==>
               (p in s.batches && t.batches[p] == s.batches[p]) || (p == 0 && FrontBatch(s, t.batches[p].todo))
    ensures OrderInv(t)
  {
    hide FrontBatch, PublishedFirst, StreamInOrder, RowsInOrder;
    SameRows(s, t);
    forall p | p in t.batches
      ensures FrontBatch(t, t.batches[p].todo)
    {
      assert FrontBatch(s, t.batches[p].todo);
    }
  }

  lemma {:induction false} OrderFrom(s: State, actions: seq<Action>)
    requires Sound(s) && OrderInv(s) && OrderedRun(s, actions)
    ensures OrderInv(Run(s, actions))
    decreases |actions|
  {
    if actions != [] {
      OrderStep(s, actions[0]);
      PublisherStep(s, actions[0]);
      OrderFrom(Do(s, actions[0]), actions[1..]);
    }
  }

  /**
   The whole stream is non-decreasing in time, across batches, despite batch limits, commits during a
   batch, publishes and marks that fail or half-fail, and the retries that follow.
   */
  lemma PublishedInOrder(actions: seq<Action>)
    requires OrderedRun(INITIAL, actions)
    ensures StreamInOrder(Run(INITIAL, actions).stream)
  {
    OrderFrom(INITIAL, actions);
  }
}
