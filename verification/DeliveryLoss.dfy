/** Which steps lose an event, and that events are applied exactly once exactly when no such step is taken. */
module DeliveryLoss {
  import opened Options
  import opened Lifecycle
  import opened Ordering
  import opened RequestStore
  import opened Delivery
  import opened DeliveryAccounting
  import Races = StatusRaces

  /** The handler inserted its event id and has not run the side effect yet. */
  predicate BetweenMarkAndApply(s: State, worker: nat) {
    worker in s.handlers && s.handlers[worker].stage.Fresh?
  }

  /** The handler is about to insert an acceptable event id that is not in the dedupe table. */
  predicate AboutToInsert(s: State, worker: nat) {
    && worker in s.handlers && s.handlers[worker].stage.Received? && s.handlers[worker].index < |s.stream|
    && var payload := s.stream[s.handlers[worker].index].payload;
       Acceptable(payload) && payload.eventId !in s.processed
  }

  /**
   The steps that lose an event: a crash or a failing side effect after the id was inserted, and an
   insert of a new id that takes effect although it reports an error.
   */
  predicate Loses(s: State, a: Action) {
    match a
    case Crash(worker) => BetweenMarkAndApply(s, worker)
    case ApplyEvent(worker, ok) => !ok && BetweenMarkAndApply(s, worker)
    case Dedupe(worker, took, reported) => took && !reported && AboutToInsert(s, worker)
    case _ => false
  }

  predicate NoLoss(s: State, actions: seq<Action>)
    decreases |actions|
  {
    actions == [] || (!Loses(s, actions[0]) && NoLoss(Do(s, actions[0]), actions[1..]))
  }

  /** The events that were recorded as processed but not applied with success. */
  ghost function Lost(s: State): set<string> {
    s.skipped + s.failed
  }

  /** The ids whose side effect ran and succeeded. */
  ghost function Succeeded(s: State): set<string> {
    AppliedIds(s) - s.failed
  }

  ghost function HandledId(s: State, worker: nat): string
    requires worker in s.handlers && s.handlers[worker].index < |s.stream|
  {
    IdAt(s, s.handlers[worker].index)
  }

  /** A step adds the id of its handler to the lost ones exactly when it loses, and nothing otherwise. */
  lemma LossStep(s: State, a: Action)
    requires Inv(s)
    ensures Loses(s, a) ==>
      && a.worker in s.handlers && s.handlers[a.worker].index < |s.stream|
      && Lost(Do(s, a)) == Lost(s) + {HandledId(s, a.worker)}
    ensures !Loses(s, a) ==> Lost(Do(s, a)) == Lost(s)
  {
    hide TableInv, PublisherInv, DoDomain, DoPublish, DoMark;
    if (a.Crash? || a.ApplyEvent? || a.Dedupe?) && a.worker in s.handlers {
      assert HandlerOk(s, s.handlers[a.worker]);
    } else {
      OthersLoseNothing(s, a);
    }
  }

  lemma OthersLoseNothing(s: State, a: Action)
    requires a.Crash? || a.ApplyEvent? || a.Dedupe? ==> a.worker !in s.handlers
    ensures Lost(Do(s, a)) == Lost(s)
  {
  }

  lemma {:induction false} LostUnlessNoLoss(s: State, actions: seq<Action>)
    requires Inv(s)
    ensures Lost(s) <= Lost(Run(s, actions))
    ensures Lost(Run(s, actions)) == Lost(s) <== NoLoss(s, actions)
    ensures Lost(s) == {} && !NoLoss(s, actions) ==> Lost(Run(s, actions)) != {}
    decreases |actions|
  {
    hide Do, Loses, Inv, Lost;
    if actions != [] {
      var t := Do(s, actions[0]);
      StepKeepsInv(s, actions[0]);
      LossStep(s, actions[0]);
      LostUnlessNoLoss(t, actions[1..]);
    }
  }

  /**
   At quiescence every committed request-created event has been applied once and with success if and
   only if no step of the run lost an event. Crashes, retries and redeliveries at other points, and any
   failure of the domain, the publisher or the broker, do no harm.
   */
  lemma ExactlyOnce(actions: seq<Action>)
    requires Quiescent(Run(INITIAL, actions))
    ensures
      var s := Run(INITIAL, actions);
      (Distinct(s.applied) && Succeeded(s) == CreatedIds(s)) <==> NoLoss(INITIAL, actions)
  {
    hide Do, Loses, NoLoss, Delivery.Run, Quiescent, CreatedIds;
    var s := Run(INITIAL, actions);
    QuietAccounting(actions);
    AtMostOnce(actions);
    InitialInv();
    LostUnlessNoLoss(INITIAL, actions);
    FailedWereApplied(actions);
    if Succeeded(s) == CreatedIds(s) {
      assert s.skipped == {} && s.failed == {};
    }
  }

  lemma InitialInv()
    ensures Inv(INITIAL) && Lost(INITIAL) == {}
  {
  }

  lemma FailedWereApplied(actions: seq<Action>)
    ensures Run(INITIAL, actions).failed <= AppliedIds(Run(INITIAL, actions))
  {
    hide Do;
    InitialInv();
    RunKeepsInv(INITIAL, actions);
  }

  /** A lost event is never applied with success, whatever happens afterwards. */
  lemma LossIsForever(before: seq<Action>, a: Action, after: seq<Action>)
    requires Loses(Run(INITIAL, before), a)
    ensures
      var s := Run(INITIAL, before);
      && a.worker in s.handlers && s.handlers[a.worker].index < |s.stream|
      && HandledId(s, a.worker) !in Succeeded(Run(Do(s, a), after))
  {
    hide Do, Delivery.Run, Inv, Lost, Succeeded;
    var s := Run(INITIAL, before);
    InitialInv();
    RunKeepsInv(INITIAL, before);
    LossStep(s, a);
    StepKeepsInv(s, a);
    LostUnlessNoLoss(Do(s, a), after);
    RunKeepsInv(Do(s, a), after);
    LostIsNotSucceeded(Run(Do(s, a), after));
  }

  lemma LostIsNotSucceeded(s: State)
    requires Inv(s)
    ensures Lost(s) !! Succeeded(s)
  {
    assert AppliedOk(s);
  }

  // ------------------------------------------------------------------------------------ lossy runs

  const ROW := Request("r", "t", "", "u", Created, 0)
  const EVENT := Event("e1", RequestCreated, 0, ROW, None)
  const RECORD := Record("e1", RequestCreated, 0, CreatedPayload("e1", RequestCreated, 0, "r", "t", Created, 0))
  const MESSAGE := Message(RequestsCreated, RECORD.payload)
  const COMMITTED := INITIAL.(
    domain := Races.State(Db(map["r" := ROW], [EVENT]), map[]),
    rows := [RECORD])

  /** One request, its event published and marked, delivered, and its id inserted by handler 0. */
  const INSERTED := COMMITTED.(
    marked := {"e1"}, stream := [MESSAGE], processed := {"e1"}, handlers := map[0 := Handler(0, Fresh)])

  lemma FirstStep(s: State, a: Action, rest: seq<Action>)
    ensures Run(s, [a] + rest) == Run(Do(s, a), rest)
  {
    assert ([a] + rest)[1..] == rest;
  }

  lemma NoStep(s: State)
    ensures Run(s, []) == s
  {
  }

  lemma CommitOne()
    ensures Do(INITIAL, Domain(Races.Create("t", "", "u", "r", "e1", 0))) == COMMITTED
  {
    hide Races.Run;
    var t := Races.Do(Postgres, Races.INITIAL, Races.Create("t", "", "u", "r", "e1", 0));
    assert t == Races.State(Db(map["r" := ROW], [EVENT]), map[]);
    assert RecordOf(EVENT) == Some(RECORD);
  }

  lemma PublishOne()
    ensures
      var fetched := Do(COMMITTED, Fetch(0, 1, [RECORD]));
      var sent := Do(fetched, Publish(0, true, true));
      Do(sent, Mark(0, true, true)) == COMMITTED.(marked := {"e1"}, stream := [MESSAGE])
  {
    assert IsSnapshot([RECORD], {}, 1, [RECORD]);
    var fetched := Do(COMMITTED, Fetch(0, 1, [RECORD]));
    assert fetched == COMMITTED.(batches := map[0 := Batch([RECORD], false)]);
    var sent := Do(fetched, Publish(0, true, true));
    assert sent == COMMITTED.(stream := [MESSAGE], batches := map[0 := Batch([RECORD], true)]);
  }

  lemma InsertOne()
    ensures
      var s := COMMITTED.(marked := {"e1"}, stream := [MESSAGE]);
      Do(Do(s, Deliver(0, 0)), Dedupe(0, true, true)) == INSERTED
  {
    var s := COMMITTED.(marked := {"e1"}, stream := [MESSAGE]);
    assert Do(s, Deliver(0, 0)) == s.(handlers := map[0 := Handler(0, Received)]);
  }

  /** Redelivery of an event whose id is in the dedupe table: acknowledged and nothing else. */
  lemma RedeliverOne(s: State)
    requires s.stream == [MESSAGE] && s.processed == {"e1"} && s.handlers == map[] && s.acked == {}
    ensures Do(Do(Do(s, Deliver(0, 0)), Dedupe(0, true, true)), Ack(0, true)) == s.(acked := {0})
  {
    var received := Do(s, Deliver(0, 0));
    assert received == s.(handlers := map[0 := Handler(0, Received)]);
    var done := Do(received, Dedupe(0, true, true));
    assert done == s.(handlers := map[0 := Handler(0, Done)]);
    assert map[0 := Handler(0, Done)] - {0} == map[];
  }

  /** Commit, fetch, publish, mark, deliver, insert; then `loss`; then redelivery until the broker is content. */
  function LossyRun(loss: Action): (r: seq<Action>) {
    [Domain(Races.Create("t", "", "u", "r", "e1", 0))] + ([Fetch(0, 1, [RECORD])] + ([Publish(0, true, true)] +
    ([Mark(0, true, true)] + ([Deliver(0, 0)] + ([Dedupe(0, true, true)] + ([loss] + Redelivery()))))))
  }

  function Redelivery(): (r: seq<Action>) {
    [Deliver(0, 0)] + ([Dedupe(0, true, true)] + ([Ack(0, true)] + []))
  }

  lemma LossyRunEnds(loss: Action)
    requires
      var s := Do(INSERTED, loss);
      s.stream == [MESSAGE] && s.processed == {"e1"} && s.handlers == map[] && s.acked == {}
    ensures Run(INITIAL, LossyRun(loss)) == Do(INSERTED, loss).(acked := {0})
  {
    hide Do, Delivery.Run;
    CommitOne();
    PublishOne();
    InsertOne();
    var s := Do(INSERTED, loss);
    RedeliverOne(s);
    var tail0 := [loss] + Redelivery();
    var tail1 := [Dedupe(0, true, true)] + tail0;
    var tail2 := [Deliver(0, 0)] + tail1;
    var tail3 := [Mark(0, true, true)] + tail2;
    var tail4 := [Publish(0, true, true)] + tail3;
    var tail5 := [Fetch(0, 1, [RECORD])] + tail4;
    FirstStep(INITIAL, Domain(Races.Create("t", "", "u", "r", "e1", 0)), tail5);
    FirstStep(COMMITTED, Fetch(0, 1, [RECORD]), tail4);
    var fetched := Do(COMMITTED, Fetch(0, 1, [RECORD]));
    FirstStep(fetched, Publish(0, true, true), tail3);
    FirstStep(Do(fetched, Publish(0, true, true)), Mark(0, true, true), tail2);
    var published := COMMITTED.(marked := {"e1"}, stream := [MESSAGE]);
    FirstStep(published, Deliver(0, 0), tail1);
    FirstStep(Do(published, Deliver(0, 0)), Dedupe(0, true, true), tail0);
    FirstStep(INSERTED, loss, Redelivery());
    RedeliveryRuns(s);
  }

  lemma RedeliveryRuns(s: State)
    ensures Run(s, Redelivery()) == Do(Do(Do(s, Deliver(0, 0)), Dedupe(0, true, true)), Ack(0, true))
  {
    hide Do, Delivery.Run;
    var s1 := Do(s, Deliver(0, 0));
    var s2 := Do(s1, Dedupe(0, true, true));
    FirstStep(s, Deliver(0, 0), [Dedupe(0, true, true)] + ([Ack(0, true)] + []));
    FirstStep(s1, Dedupe(0, true, true), [Ack(0, true)] + []);
    FirstStep(s2, Ack(0, true), []);
    NoStep(Do(s2, Ack(0, true)));
  }

  /** A crash between the insert and the side effect: the system comes to rest and the event is never applied. */
  lemma CrashLosesEvent()
    ensures
      var s := Run(INITIAL, LossyRun(Crash(0)));
      Quiescent(s) && CreatedIds(s) == {"e1"} && s.applied == []
  {
    hide Delivery.Run, LossyRun;
    var t := INSERTED.(skipped := {"e1"}, handlers := map[]);
    assert map[0 := Handler(0, Fresh)] - {0} == map[];
    assert Do(INSERTED, Crash(0)) == t;
    LossyRunEnds(Crash(0));
  }

  /** A side effect that fails is not retried: redelivery finds the id in the dedupe table and acknowledges. */
  lemma FailureIsNotRetried()
    ensures
      var s := Run(INITIAL, LossyRun(ApplyEvent(0, false)));
      Quiescent(s) && CreatedIds(s) == {"e1"} && s.applied == ["e1"] && Succeeded(s) == {}
  {
    hide Delivery.Run, LossyRun;
    var t := INSERTED.(applied := ["e1"], failed := {"e1"}, handlers := map[]);
    assert map[0 := Handler(0, Fresh)] - {0} == map[];
    assert Do(INSERTED, ApplyEvent(0, false)) == t;
    LossyRunEnds(ApplyEvent(0, false));
  }
}
