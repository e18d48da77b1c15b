/** At-most-once application, and where every committed event is at any moment. */
module DeliveryAccounting {
  import opened Ordering
  import opened Delivery

  /** The event id in the message a handler works on. */
  ghost function IdAt(s: State, index: nat): string
    requires index < |s.stream|
  {
    s.stream[index].payload.eventId
  }

  ghost predicate OnCreated(stream: seq<Message>, id: string) {
    exists i :: 0 <= i < |stream| && stream[i].subject.RequestsCreated? && stream[i].payload.eventId == id
  }

  ghost predicate HandlerOk(s: State, h: Handler) {
    && h.index < |s.stream| && s.stream[h.index].subject.RequestsCreated?
    && (h.stage.Done? ==> IdAt(s, h.index) in s.processed)
    && (h.stage.Fresh? ==>
          var id := IdAt(s, h.index);
          id in s.processed && id !in s.applied && id !in s.skipped)
  }

  ghost predicate HandlersOk(s: State) {
    forall w :: w in s.handlers ==> HandlerOk(s, s.handlers[w])
  }

  ghost predicate HoldsFresh(s: State, w: nat, id: string) {
    && w in s.handlers && s.handlers[w].stage.Fresh?
    && s.handlers[w].index < |s.stream| && IdAt(s, s.handlers[w].index) == id
  }

  ghost predicate OneHolder(s: State) {
    forall v, w, id :: HoldsFresh(s, v, id) && HoldsFresh(s, w, id) ==> v == w
  }

  ghost predicate AckedOk(s: State) {
    forall i :: i in s.acked ==> i < |s.stream| && IdAt(s, i) in s.processed
  }

  /** Some handler won this id and has not applied it yet. */
  ghost predicate InFlight(s: State, id: string) {
    exists w :: HoldsFresh(s, w, id)
  }

  /** Each processed id is applied, skipped or in flight. */
  ghost predicate ProcessedOk(s: State) {
    forall id :: id in s.processed ==>
      OnCreated(s.stream, id) && (id in s.applied || id in s.skipped || InFlight(s, id))
  }

  ghost predicate AppliedOk(s: State) {
    && Distinct(s.applied)
    && (forall id :: id in s.applied ==> id in s.processed && id !in s.skipped)
    && s.skipped <= s.processed
    && (forall id :: id in s.failed ==> id in s.applied)
  }

  ghost predicate WorkerInv(s: State) {
    HandlersOk(s) && OneHolder(s) && AckedOk(s) && ProcessedOk(s) && AppliedOk(s)
  }

  lemma OnCreatedGrows(stream: seq<Message>, longer: seq<Message>, id: string)
    requires stream <= longer && OnCreated(stream, id)
    ensures OnCreated(longer, id)
  {
  }

  lemma HoldersSame(s: State, t: State)
    requires HandlersOk(s) && s.stream <= t.stream && t.handlers == s.handlers
    ensures forall w, id :: HoldsFresh(s, w, id) <==> HoldsFresh(t, w, id)
  {
  }

  /** Nothing the worker looks at changed, except that the stream may have grown. */
  lemma WorkerUnaffected(s: State, t: State)
    requires WorkerInv(s) && s.stream <= t.stream
    requires t.acked == s.acked && t.processed == s.processed && t.handlers == s.handlers
    requires t.applied == s.applied && t.failed == s.failed && t.skipped == s.skipped
    ensures WorkerInv(t)
  {
    HoldersSame(s, t);
    assert HandlersOk(t) by {
      forall w | w in t.handlers
        ensures HandlerOk(t, t.handlers[w])
      {
        assert HandlerOk(s, s.handlers[w]);
      }
    }
    assert ProcessedOk(t) by {
      forall id | id in t.processed
        ensures OnCreated(t.stream, id) && (id in t.applied || id in t.skipped || InFlight(t, id))
      {
        OnCreatedGrows(s.stream, t.stream, id);
      }
    }
  }

  /** A step that changes one handler leaves the ids held by the others alone. */
  lemma OthersHold(s: State, t: State, worker: nat)
    requires t.stream == s.stream
    requires forall w :: w != worker ==> (w in t.handlers <==> w in s.handlers)
    requires forall w :: w != worker && w in t.handlers ==> t.handlers[w] == s.handlers[w]
    ensures forall w, id :: w != worker ==> (HoldsFresh(s, w, id) <==> HoldsFresh(t, w, id))
    ensures forall id :: InFlight(s, id) ==> InFlight(t, id) || HoldsFresh(s, worker, id)
  {
  }

  lemma OthersOk(s: State, t: State, worker: nat)
    requires HandlersOk(s) && t.stream == s.stream && s.processed <= t.processed
    requires forall w :: w != worker && w in t.handlers ==> w in s.handlers && t.handlers[w] == s.handlers[w]
    requires forall w, id :: w != worker && HoldsFresh(s, w, id) ==>
               (id in t.applied ==> id in s.applied) && (id in t.skipped ==> id in s.skipped)
    ensures forall w :: w != worker && w in t.handlers ==> HandlerOk(t, t.handlers[w])
  {
    forall w | w != worker && w in t.handlers
      ensures HandlerOk(t, t.handlers[w])
    {
      assert HandlerOk(s, s.handlers[w]);
      if s.handlers[w].stage.Fresh? {
        assert HoldsFresh(s, w, IdAt(s, s.handlers[w].index));
      }
    }
  }

  lemma DeliverStep(s: State, worker: nat, index: nat)
    requires WorkerInv(s)
    ensures WorkerInv(Do(s, Deliver(worker, index)))
  {
    var t := Do(s, Deliver(worker, index));
    if t != s {
      OthersHold(s, t, worker);
      OthersOk(s, t, worker);
    }
  }

  lemma DedupeHandlers(s: State, t: State, worker: nat, took: bool, reported: bool)
    requires HandlersOk(s) && OneHolder(s) && ProcessedOk(s) && AppliedOk(s)
    requires t == DoDedupe(s, worker, took, reported) && t != s
    ensures HandlersOk(t) && OneHolder(t)
  {
    hide OnCreated, Acceptable, Distinct, ProcessedOk, InFlight;
    var id := IdAt(s, s.handlers[worker].index);
    assert HandlerOk(s, s.handlers[worker]);
    OthersHold(s, t, worker);
    HeldIsProcessed(s);
    OthersOk(s, t, worker);
  }

  lemma DedupeLedger(s: State, t: State, worker: nat, took: bool, reported: bool)
    requires WorkerInv(s) && t == DoDedupe(s, worker, took, reported) && t != s
    ensures AckedOk(t) && ProcessedOk(t) && AppliedOk(t)
  {
    hide Distinct, OneHolder, Acceptable;
    var id := IdAt(s, s.handlers[worker].index);
    assert HandlerOk(s, s.handlers[worker]);
    assert OnCreated(s.stream, id);
    hide OnCreated;
    OthersHold(s, t, worker);
    if worker in t.handlers && t.handlers[worker].stage.Fresh? {
      assert HoldsFresh(t, worker, id);
    }
  }

  lemma DedupeStep(s: State, worker: nat, took: bool, reported: bool)
    requires WorkerInv(s)
    ensures WorkerInv(DoDedupe(s, worker, took, reported))
  {
    hide DoDedupe, HandlersOk, OneHolder, AckedOk, ProcessedOk, AppliedOk;
    var t := DoDedupe(s, worker, took, reported);
    if t != s {
      DedupeHandlers(s, t, worker, took, reported);
      DedupeLedger(s, t, worker, took, reported);
    }
  }

  lemma HeldIsProcessed(s: State)
    requires HandlersOk(s)
    ensures forall w, id :: HoldsFresh(s, w, id) ==> id in s.processed && id !in s.applied && id !in s.skipped
  {
  }

  lemma ApplyStep(s: State, worker: nat, ok: bool)
    requires WorkerInv(s)
    ensures WorkerInv(DoApply(s, worker, ok))
  {
    var t := DoApply(s, worker, ok);
    if t != s {
      var id := IdAt(s, s.handlers[worker].index);
      assert HandlerOk(s, s.handlers[worker]);
      assert HoldsFresh(s, worker, id);
      OthersHold(s, t, worker);
      assert t.applied[|s.applied|] == id;
      assert forall x :: x in t.applied <==> x in s.applied || x == id;
      OthersOk(s, t, worker);
    }
  }

  lemma CrashStep(s: State, worker: nat)
    requires WorkerInv(s)
    ensures WorkerInv(DoCrash(s, worker))
  {
    var t := DoCrash(s, worker);
    if t != s {
      assert HandlerOk(s, s.handlers[worker]);
      OthersHold(s, t, worker);
      assert s.handlers[worker].stage.Fresh? ==> HoldsFresh(s, worker, IdAt(s, s.handlers[worker].index));
      OthersOk(s, t, worker);
    }
  }

  lemma AckStep(s: State, worker: nat, took: bool)
    requires WorkerInv(s)
    ensures WorkerInv(Do(s, Ack(worker, took)))
  {
    var t := Do(s, Ack(worker, took));
    if t != s {
      assert HandlerOk(s, s.handlers[worker]);
      OthersHold(s, t, worker);
      OthersOk(s, t, worker);
    }
  }

  lemma WorkerStep(s: State, a: Action)
    requires WorkerInv(s)
    ensures WorkerInv(Do(s, a))
  {
    match a
    case Deliver(worker, index) => DeliverStep(s, worker, index);
    case Dedupe(worker, took, reported) => DedupeStep(s, worker, took, reported);
    case ApplyEvent(worker, ok) => ApplyStep(s, worker, ok);
    case Ack(worker, took) => AckStep(s, worker, took);
    case Crash(worker) => CrashStep(s, worker);
    case _ => WorkerUnaffected(s, Do(s, a));
  }

  ghost predicate Inv(s: State) {
    Sound(s) && WorkerInv(s)
  }

  /** Every step of every component keeps the whole invariant. */
  lemma StepKeepsInv(s: State, a: Action)
    requires Inv(s)
    ensures Inv(Do(s, a))
  {
    PublisherStep(s, a);
    WorkerStep(s, a);
  }

  lemma {:induction false} RunKeepsInv(s: State, actions: seq<Action>)
    requires Inv(s)
    ensures Inv(Run(s, actions))
    decreases |actions|
  {
    if actions != [] {
      StepKeepsInv(s, actions[0]);
      RunKeepsInv(Do(s, actions[0]), actions[1..]);
    }
  }

  // -------------------------------------------------------------------------------- main results

  /** The ids of the committed request-created events. */
  ghost function CreatedIds(s: State): set<string> {
    set e | e in s.domain.db.log && e.eventType.RequestCreated? :: e.eventId
  }

  ghost function AppliedIds(s: State): set<string> {
    set id | id in s.applied
  }

  /** All rows are marked, all requests.created messages acked, and no handler sits between mark and apply. */
  ghost predicate Quiescent(s: State) {
    && (forall r :: r in s.rows ==> r.eventId in s.marked)
    && (forall i :: 0 <= i < |s.stream| && s.stream[i].subject.RequestsCreated? ==> i in s.acked)
    && (forall w :: w in s.handlers ==> !s.handlers[w].stage.Fresh?)
  }

  lemma ProcessedWereCommitted(s: State)
    requires TableMatchesLog(s.domain.db.log, s.rows) && PublisherInv(s) && ProcessedOk(s)
    ensures s.processed <= CreatedIds(s)
  {
  }

  lemma QuietMeansProcessed(s: State)
    requires TableMatchesLog(s.domain.db.log, s.rows) && PublisherInv(s) && AckedOk(s)
    requires Quiescent(s)
    ensures CreatedIds(s) <= s.processed
  {
  }

  /**
   Whatever is lost, duplicated, redelivered or crashes: no event is applied twice, only committed
   request-created events are applied, and an id whose side effect was skipped is never applied.
   */
  lemma AtMostOnce(actions: seq<Action>)
    ensures
      var s := Run(INITIAL, actions);
      && Distinct(s.applied)
      && AppliedIds(s) + s.skipped <= CreatedIds(s)
      && AppliedIds(s) !! s.skipped
  {
    RunKeepsInv(INITIAL, actions);
    ProcessedWereCommitted(Run(INITIAL, actions));
  }

  /** Once the system is quiet, the side effect was invoked for exactly the committed events that were not skipped. */
  lemma QuietAccounting(actions: seq<Action>)
    requires Quiescent(Run(INITIAL, actions))
    ensures
      var s := Run(INITIAL, actions);
      && AppliedIds(s) == CreatedIds(s) - s.skipped
      && (AppliedIds(s) == CreatedIds(s) <==> s.skipped == {})
  {
    var s := Run(INITIAL, actions);
    RunKeepsInv(INITIAL, actions);
    ProcessedWereCommitted(s);
    QuietMeansProcessed(s);
    assert forall id :: id in s.processed ==> id in s.applied || id in s.skipped;
  }

  lemma SkippedGrows(s: State, a: Action)
    ensures s.skipped <= Do(s, a).skipped
  {
  }

  /** A handler that dies between its id insert and the side effect loses the event for good. */
  lemma {:induction false} SkippedIsForever(s: State, actions: seq<Action>, id: string)
    requires Inv(s) && id in s.skipped
    ensures id in Run(s, actions).skipped && id !in Run(s, actions).applied
    decreases |actions|
  {
    if actions == [] {
      assert id in s.applied ==> id !in s.skipped;
    } else {
      StepKeepsInv(s, actions[0]);
      SkippedGrows(s, actions[0]);
      SkippedIsForever(Do(s, actions[0]), actions[1..], id);
    }
  }

  /** Every published message is a committed payload on its routed subject, and every marked row was published. */
  lemma PublishedAndMarked(actions: seq<Action>)
    ensures
      var s := Run(INITIAL, actions);
      && (forall i :: 0 <= i < |s.stream| ==> FromRow(s.rows, s.stream[i]))
      && (forall id :: id in s.marked ==> MarkedRow(s.rows, s.stream, id))
      && TableMatchesLog(s.domain.db.log, s.rows)
      && (forall i :: 0 <= i < |s.rows| ==> Route(s.rows[i].eventType).Some?)
  {
    RunKeepsInv(INITIAL, actions);
    var s := Run(INITIAL, actions);
    assert forall i :: 0 <= i < |s.rows| ==> GoodRecord(s.rows[i]);
  }
}
