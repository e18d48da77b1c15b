/** The outbox poller as code, shown to be a run of the delivery protocol whatever else is going on. */
module Publisher {
  import opened Options
  import opened Ordering
  import opened Delivery
  import opened Actors
  import Runs

  const DEFAULT_BATCH_SIZE := 100

  /** How a remote call ends; a reported failure may still have taken effect. */
  datatype Outcome = Succeeded | Refused | FailedAfterEffect

  datatype BatchError = FetchFailed | Unroutable | PublishFailed | MarkFailed

  predicate Earlier(a: Record, b: Record) {
    a.occurredAt < b.occurredAt
  }

  function Pending(rows: seq<Record>, marked: set<string>): (r: seq<Record>)
    ensures |r| <= |rows|
  {
    if rows == [] then []
    else (if rows[0].eventId in marked then [] else [rows[0]]) + Pending(rows[1..], marked)
  }

  /** The fetch query: unpublished rows by time, cut at the limit. */
  function Snapshot(rows: seq<Record>, marked: set<string>, limit: nat): (r: seq<Record>) {
    var sorted := Sort(Earlier, Pending(rows, marked));
    if limit < |sorted| then sorted[..limit] else sorted
  }

  lemma {:induction false} PendingMembers(rows: seq<Record>, marked: set<string>, r: Record)
    ensures r in Pending(rows, marked) <==> r in rows && r.eventId !in marked
  {
    if rows != [] {
      PendingMembers(rows[1..], marked, r);
    }
  }

  lemma {:induction false} PendingDistinct(rows: seq<Record>, marked: set<string>)
    requires DistinctIds(rows)
    ensures Distinct(Pending(rows, marked))
  {
    if rows != [] {
      var rest := Pending(rows[1..], marked);
      PendingDistinct(rows[1..], marked);
      PendingMembers(rows[1..], marked, rows[0]);
      assert rows[0] !in rows[1..];
    }
  }

  lemma SortedPending(rows: seq<Record>, marked: set<string>)
    requires DistinctIds(rows)
    ensures
      var sorted := Sort(Earlier, Pending(rows, marked));
      && Distinct(sorted) && |sorted| == |Pending(rows, marked)|
      && (forall r :: r in sorted <==> r in rows && r.eventId !in marked)
      && (forall i, j :: 0 <= i < j < |sorted| ==> sorted[i].occurredAt <= sorted[j].occurredAt)
  {
    var pending := Pending(rows, marked);
    var sorted := Sort(Earlier, pending);
    SortSorted(Earlier, pending);
    SameMultiset(sorted, pending);
    PendingDistinct(rows, marked);
    DistinctFromMultiset(pending, sorted);
    forall r
      ensures r in sorted <==> r in rows && r.eventId !in marked
    {
      PendingMembers(rows, marked, r);
    }
    forall i, j | 0 <= i < j < |sorted|
      ensures sorted[i].occurredAt <= sorted[j].occurredAt
    {
      assert !Earlier(sorted[j], sorted[i]);
    }
  }

  /** A prefix of a sorted list of distinct pending rows answers the query. */
  lemma PrefixAnswers(rows: seq<Record>, marked: set<string>, limit: nat, sorted: seq<Record>, out: seq<Record>)
    requires Distinct(sorted)
    requires forall r :: r in sorted <==> r in rows && r.eventId !in marked
    requires forall i, j :: 0 <= i < j < |sorted| ==> sorted[i].occurredAt <= sorted[j].occurredAt
    requires out == if limit < |sorted| then sorted[..limit] else sorted
    ensures IsSnapshot(rows, marked, limit, out)
  {
  }

  lemma SnapshotAnswers(rows: seq<Record>, marked: set<string>, limit: nat)
    requires DistinctIds(rows)
    ensures IsSnapshot(rows, marked, limit, Snapshot(rows, marked, limit))
    ensures |Snapshot(rows, marked, limit)| ==
            if limit < |Pending(rows, marked)| then limit else |Pending(rows, marked)|
  {
    SortedPending(rows, marked);
    PrefixAnswers(rows, marked, limit, Sort(Earlier, Pending(rows, marked)), Snapshot(rows, marked, limit));
  }

  /** What a poller does with the first k records of its batch. */
  function Pairs(id: nat, k: nat): (r: seq<Action>) {
    if k == 0 then [] else Pairs(id, k - 1) + [Publish(id, true, true), Mark(id, true, true)]
  }

  /** The calls on one record: both, or up to the one that failed. */
  function Ending(id: nat, error: Option<BatchError>, effect: bool): (r: seq<Action>) {
    if error == Some(PublishFailed) then [Publish(id, effect, false)]
    else if error == Some(MarkFailed) then [Publish(id, true, true), Mark(id, effect, false)]
    else [Publish(id, true, true), Mark(id, true, true)]
  }

  /** After the fetch: `published` records, then the record a failure left in doubt, if any. */
  function BatchActions(id: nat, published: nat, error: Option<BatchError>, effect: bool): (r: seq<Action>) {
    Pairs(id, published) + if error.None? then [] else Ending(id, error, effect)
  }

  lemma BatchSoFar(before: seq<Action>, id: nat, k: nat, error: Option<BatchError>, effect: bool)
    ensures before + Pairs(id, 0) == before
    ensures error.None? ==> before + Pairs(id, k) + Ending(id, error, effect) == before + Pairs(id, k + 1)
    ensures error.None? ==> before + Pairs(id, k) == before + BatchActions(id, k, error, effect)
    ensures error.Some? ==>
      before + Pairs(id, k) + Ending(id, error, effect) == before + BatchActions(id, k, error, effect)
  {
  }

  /** A batch in progress starts with a routable row, and only its own poller changes it. */
  lemma BatchIsMine(history: seq<Action>, id: nat, others: seq<Action>)
    requires Foreign(Actors.Poller(id), others)
    ensures
      var s, mid := Run(INITIAL, history), Run(Run(INITIAL, history), others);
      && (id in mid.batches <==> id in s.batches)
      && (id in s.batches ==>
            && mid.batches[id] == s.batches[id]
            && s.batches[id].todo != [] && Route(s.batches[id].todo[0].eventType).Some?)
  {
    var s := Run(INITIAL, history);
    ReachableIsSound(history);
    ForeignKeepsMine(Actors.Poller(id), s, others);
    if id in s.batches {
      assert BatchOk(s.rows, s.stream, s.batches[id]);
      assert IsRow(s.rows, s.batches[id].todo[0]);
    }
  }

  lemma FetchAnswers(history: seq<Action>, limit: nat)
    ensures
      var s := Run(INITIAL, history);
      IsSnapshot(s.rows, s.marked, limit, Snapshot(s.rows, s.marked, limit))
  {
    var s := Run(INITIAL, history);
    ReachableIsSound(history);
    SnapshotAnswers(s.rows, s.marked, limit);
  }

  /** The record is published on its subject and marked. */
  ghost predicate Settled(s: State, r: Record) {
    SentAs(s.stream, r) && r.eventId in s.marked
  }

  lemma SettledStays(s: State, t: State)
    requires Grows(s, t)
    ensures forall r :: SentAs(s.stream, r) ==> SentAs(t.stream, r)
    ensures forall r :: Settled(s, r) ==> Settled(t, r)
  {
    hide Route;
    assert forall m :: m in s.stream ==> m in t.stream;
  }

  class Poller {
    var world: State // everything the calls reach: tables, broker, and the other processes' progress
    const id: nat
    const limit: nat
    ghost var history: seq<Action> // how the world came to be what it is

    ghost predicate Valid()
      reads this
    {
      world == Run(INITIAL, history)
    }

    /** Joins a system that has been running. */
    constructor (actions: seq<Action>, id: nat, limit: int)
      ensures Valid() && history == actions && this.id == id
      ensures this.limit == (if limit <= 0 then 100 else limit) && this.limit > 0
    {
      this.world, this.id, this.history := Run(INITIAL, actions), id, actions;
      this.limit := if limit <= 0 then DEFAULT_BATCH_SIZE else limit;
    }

    /** One remote call, after the other processes have run for a while. */
    method Call(others: seq<Action>, a: Action)
      requires Valid() && Foreign(Actors.Poller(id), others) && By(Actors.Poller(id), a)
      modifies this
      ensures Valid()
      ensures world == Do(Run(old(world), others), a) && Grows(old(world), world)
      ensures Own(Actors.Poller(id), history) == old(Own(Actors.Poller(id), history)) + [a]
    {
      hide Do, By;
      RunGrows(world, others);
      StepGrows(Run(world, others), a);
      Extend(Actors.Poller(id), history, others, a);
      history := history + (others + [a]);
      world := Do(Run(world, others), a);
    }

    method FetchUnpublished(others: seq<Action>) returns (records: seq<Record>)
      requires Valid() && Foreign(Actors.Poller(id), others) && id !in world.batches
      modifies this
      ensures Valid()
      ensures records == Snapshot(Run(old(world), others).rows, Run(old(world), others).marked, limit)
      ensures if records == [] then id !in world.batches
              else id in world.batches && world.batches[id] == Batch(records, false)
      ensures Own(Actors.Poller(id), history) == old(Own(Actors.Poller(id), history)) + [Fetch(id, limit, records)]
    {
      var now := Run(world, others);
      BatchIsMine(history, id, others);
      Runs.Concat(Do, INITIAL, history, others);
      FetchAnswers(history + others, limit);
      records := Snapshot(now.rows, now.marked, limit);
      Call(others, Fetch(id, limit, records));
    }

    method PublishHead(others: seq<Action>, outcome: Outcome)
      requires Valid() && Foreign(Actors.Poller(id), others) && id in world.batches && !world.batches[id].sent
      modifies this
      ensures Valid() && old(world).batches[id].todo != []
      ensures if outcome.Succeeded? then
                && id in world.batches && world.batches[id] == old(world).batches[id].(sent := true)
                && SentAs(world.stream, old(world).batches[id].todo[0])
              else id !in world.batches
      ensures Grows(old(world), world)
      ensures Own(Actors.Poller(id), history) ==
              old(Own(Actors.Poller(id), history)) + [Publish(id, !outcome.Refused?, outcome.Succeeded?)]
    {
      BatchIsMine(history, id, others);
      Call(others, Publish(id, !outcome.Refused?, outcome.Succeeded?));
    }

    method MarkPublished(others: seq<Action>, outcome: Outcome)
      requires Valid() && Foreign(Actors.Poller(id), others) && id in world.batches && world.batches[id].sent
      modifies this
      ensures Valid()
      ensures
        var todo := old(world).batches[id].todo;
        && todo != [] && (outcome.Succeeded? ==> todo[0].eventId in world.marked)
        && if outcome.Succeeded? && |todo| > 1 then
             id in world.batches && world.batches[id] == Batch(todo[1..], false)
           else id !in world.batches
      ensures Grows(old(world), world)
      ensures Own(Actors.Poller(id), history) ==
              old(Own(Actors.Poller(id), history)) + [Mark(id, !outcome.Refused?, outcome.Succeeded?)]
    {
      BatchIsMine(history, id, others);
      Call(others, Mark(id, !outcome.Refused?, outcome.Succeeded?));
    }

    /** Publishes and marks the first record of the batch, stopping at the first call that fails. */
    method PublishRecord(
      beforePublish: seq<Action>, publish: Outcome, beforeMark: seq<Action>, mark: Outcome)
      returns (error: Option<BatchError>, ghost effect: bool)
      requires Valid() && Foreign(Actors.Poller(id), beforePublish) && Foreign(Actors.Poller(id), beforeMark)
      requires id in world.batches && !world.batches[id].sent
      modifies this
      ensures Valid()
      ensures error.None? <==> publish.Succeeded? && mark.Succeeded?
      ensures error.None? || error == Some(PublishFailed) || error == Some(MarkFailed)
      ensures
        var todo := old(world).batches[id].todo;
        && todo != [] && (error.None? ==> Settled(world, todo[0]))
        && if error.None? && |todo| > 1 then
             id in world.batches && world.batches[id] == Batch(todo[1..], false)
           else id !in world.batches
      ensures Grows(old(world), world)
      ensures Own(Actors.Poller(id), history) == old(Own(Actors.Poller(id), history)) + Ending(id, error, effect)
    {
      hide Own, Delivery.Run, Do, Route, Foreign, SentAs, Grows;
      error, effect := None, true;
      ghost var start := world;
      PublishHead(beforePublish, publish);
      if !publish.Succeeded? {
        error, effect := Some(PublishFailed), !publish.Refused?;
        return;
      }
      ghost var sent := world;
      MarkPublished(beforeMark, mark);
      GrowsTwice(start, sent, world);
      SettledStays(sent, world);
      if !mark.Succeeded? {
        error, effect := Some(MarkFailed), !mark.Refused?;
      }
    }

    /** The publish-then-mark loop over the fetched records. */
    method PublishRecords(
      records: seq<Record>, publish: nat -> Outcome, mark: nat -> Outcome, others: nat -> seq<Action>)
      returns (published: nat, error: Option<BatchError>, ghost effect: bool)
      requires Valid() && forall k :: Foreign(Actors.Poller(id), others(k))
      requires id in world.batches <==> records != []
      requires id in world.batches ==> world.batches[id] == Batch(records, false)
      modifies this
      ensures Valid() && id !in world.batches
      ensures error.None? || error == Some(PublishFailed) || error == Some(MarkFailed)
      ensures published <= |records| && (error.None? <==> published == |records|)
      ensures forall k :: 0 <= k < published ==> Settled(world, records[k])
      ensures Own(Actors.Poller(id), history) ==
              old(Own(Actors.Poller(id), history)) + BatchActions(id, published, error, effect)
    {
      hide Own, Delivery.Run, Do, Route, Foreign, Pairs, Ending, BatchActions, Settled, Grows;
      published, error, effect := 0, None, false;
      ghost var before := Own(Actors.Poller(id), history);
      BatchSoFar(before, id, 0, None, false);
      while published < |records|
        invariant published <= |records| && Valid() && error.None?
        invariant Own(Actors.Poller(id), history) == before + Pairs(id, published)
        invariant id in world.batches <==> published < |records|
        invariant published < |records| ==> world.batches[id] == Batch(records[published..], false)
        invariant forall k :: 0 <= k < published ==> Settled(world, records[k])
      {
        ghost var earlier := world;
        BatchIsMine(history, id, []);
        if Route(records[published].eventType).None? {
          assert false;
        }
        error, effect := PublishRecord(
          others(2 * published + 1), publish(published), others(2 * published + 2), mark(published));
        BatchSoFar(before, id, published, error, effect);
        SettledStays(earlier, world);
        if error.Some? {
          return;
        }
        published := published + 1;
      }
      BatchSoFar(before, id, published, None, effect);
    }

    /**
     Publishes one batch. `others(k)` is what the rest of the system does before the k-th remote call.
     The execution is a run of the protocol in which this poller publishes and marks exactly the first
     `published` of the records it fetched, in order, and stops at its first failing call, leaving at
     most one record in doubt. No event of the service is unroutable.
     */
    method PublishBatch(fetchOk: bool, publish: nat -> Outcome, mark: nat -> Outcome, others: nat -> seq<Action>)
      returns (published: nat, error: Option<BatchError>, ghost effect: bool)
      requires Valid() && id !in world.batches
      requires forall k :: Foreign(Actors.Poller(id), others(k))
      modifies this
      ensures Valid() && id !in world.batches
      ensures error == Some(FetchFailed) <==> !fetchOk
      ensures error != Some(Unroutable)
      ensures !fetchOk ==> world == old(world) && published == 0
      ensures fetchOk ==>
        var start := Run(old(world), others(0));
        var records := Snapshot(start.rows, start.marked, limit);
        && published <= |records| && (error.None? <==> published == |records|)
        && (forall k :: 0 <= k < published ==> Settled(world, records[k]))
        && Own(Actors.Poller(id), history) ==
           old(Own(Actors.Poller(id), history)) + [Fetch(id, limit, records)]
           + BatchActions(id, published, error, effect)
    {
      hide Settled;
      if !fetchOk {
        return 0, Some(FetchFailed), false;
      }
      var records := FetchUnpublished(others(0));
      published, error, effect := PublishRecords(records, publish, mark, others);
    }
  }
}
