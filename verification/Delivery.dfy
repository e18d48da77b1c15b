/**
 The transactional outbox from commit to side effect, as one transition system: the domain service
 commits rows and events, any number of pollers publish and mark, the broker stores and redelivers,
 and any number of handlers deduplicate and apply. Each store, broker or side-effect call is a step
 of its own, may fail, and may have taken effect although it reported a failure. Every sequence of
 actions is a run: an action that is not possible leaves the state alone.
 */
module Delivery {
  import opened Options
  import opened Lifecycle
  import opened RequestStore
  import Races = StatusRaces
  import Runs

  datatype Subject = RequestsCreated | RequestsStatusChanged

  /** An outbox row; published_at is kept apart, in the set of marked ids. */
  datatype Record = Record(eventId: string, eventType: EventType, occurredAt: Time, payload: Payload)

  datatype Message = Message(subject: Subject, payload: Payload)

  /** A fetched batch in progress; `sent` says its first record is published and not yet marked. */
  datatype Batch = Batch(todo: seq<Record>, sent: bool)

  /** Received, then Fresh once this handler's id insert won, then Done when Handle returned nil. */
  datatype Stage = Received | Fresh | Done

  datatype Handler = Handler(index: nat, stage: Stage)

  datatype State = State(
    domain: Races.State,
    rows: seq<Record>,
    marked: set<string>,
    batches: map<nat, Batch>,
    stream: seq<Message>,
    acked: set<nat>,
    processed: set<string>,
    handlers: map<nat, Handler>,
    applied: seq<string>,  // one entry per invocation of the side effect
    failed: set<string>,   // invocations that returned an error
    skipped: set<string>)  // recorded as processed, but the side effect was never invoked

  datatype Action =
    | Domain(a: Races.Action)
    | Fetch(poller: nat, limit: nat, records: seq<Record>)
    | Publish(poller: nat, delivered: bool, reported: bool)
    | Mark(poller: nat, took: bool, reported: bool)
    | StopBatch(poller: nat)
    | Deliver(worker: nat, index: nat)
    | Dedupe(worker: nat, took: bool, reported: bool)
    | ApplyEvent(worker: nat, ok: bool)
    | Ack(worker: nat, took: bool)
    | Crash(worker: nat)

  const INITIAL := State(Races.INITIAL, [], {}, map[], [], {}, {}, map[], [], {}, {})

  /** The publisher's routing table. */
  function Route(eventType: EventType): (r: Option<Subject>) {
    match eventType
    case RequestCreated => Some(RequestsCreated)
    case StatusChanged => Some(RequestsStatusChanged)
    case Unsupported(_) => None
  }

  function RecordOf(event: Event): (r: Option<Record>) {
    var payload := BuildPayload(event);
    if payload.None? then None
    else Some(Record(event.eventId, event.eventType, event.occurredAt, payload.value))
  }

  /** An answer to the fetch query: earliest unpublished rows first, ties in any order. */
  predicate IsSnapshot(rows: seq<Record>, marked: set<string>, limit: nat, records: seq<Record>) {
    && |records| <= limit
    && (forall r :: r in records ==> r in rows && r.eventId !in marked)
    && (forall i, j :: 0 <= i < j < |records| ==>
          records[i] != records[j] && records[i].occurredAt <= records[j].occurredAt)
    && (forall r :: r in rows && r.eventId !in marked && r !in records ==>
          |records| == limit && forall x :: x in records ==> x.occurredAt <= r.occurredAt)
  }

  /** What the worker checks before it touches the dedupe table. */
  predicate Acceptable(payload: Payload) {
    payload.eventId != "" && !payload.eventType.Unsupported?
  }

  function DoDomain(s: State, a: Races.Action): (r: State) {
    var t := Races.Do(Postgres, s.domain, a);
    var added := t.db.log != s.domain.db.log && t.db.log != [];
    var record := if added then RecordOf(t.db.log[|t.db.log| - 1]) else None;
    s.(domain := t, rows := if record.Some? then s.rows + [record.value] else s.rows)
  }

  function DoPublish(s: State, poller: nat, delivered: bool, reported: bool): (r: State) {
    if poller !in s.batches || s.batches[poller].todo == [] || s.batches[poller].sent || (reported && !delivered) then s
    else
      var batch := s.batches[poller];
      var subject := Route(batch.todo[0].eventType);
      if subject.None? then s.(batches := s.batches - {poller})
      else
        s.(stream := if delivered then s.stream + [Message(subject.value, batch.todo[0].payload)] else s.stream,
           batches := if reported then s.batches[poller := batch.(sent := true)] else s.batches - {poller})
  }

  function DoMark(s: State, poller: nat, took: bool, reported: bool): (r: State) {
    if poller !in s.batches || s.batches[poller].todo == [] || !s.batches[poller].sent || (reported && !took) then s
    else
      var todo := s.batches[poller].todo;
      s.(marked := if took then s.marked + {todo[0].eventId} else s.marked,
         batches := if reported && |todo| > 1 then s.batches[poller := Batch(todo[1..], false)]
                    else s.batches - {poller})
  }

  function DoDedupe(s: State, worker: nat, took: bool, reported: bool): (r: State) {
    if worker !in s.handlers || !s.handlers[worker].stage.Received? || s.handlers[worker].index >= |s.stream|
       || (reported && !took) then s
    else
      var index := s.handlers[worker].index;
      var payload := s.stream[index].payload;
      var isNew := payload.eventId !in s.processed;
      if !Acceptable(payload) then s.(handlers := s.handlers - {worker})
      else
        s.(processed := if took then s.processed + {payload.eventId} else s.processed,
           skipped := if took && isNew && !reported then s.skipped + {payload.eventId} else s.skipped,
           handlers := if reported then s.handlers[worker := Handler(index, if isNew then Fresh else Done)]
                       else s.handlers - {worker})
  }

  function DoApply(s: State, worker: nat, ok: bool): (r: State) {
    if worker !in s.handlers || !s.handlers[worker].stage.Fresh? || s.handlers[worker].index >= |s.stream| then s
    else
      var index := s.handlers[worker].index;
      var id := s.stream[index].payload.eventId;
      s.(applied := s.applied + [id],
         failed := if ok then s.failed else s.failed + {id},
         handlers := if ok then s.handlers[worker := Handler(index, Done)] else s.handlers - {worker})
  }

  function DoCrash(s: State, worker: nat): (r: State) {
    if worker !in s.handlers || s.handlers[worker].index >= |s.stream| then s
    else
      var h := s.handlers[worker];
      s.(skipped := if h.stage.Fresh? then s.skipped + {s.stream[h.index].payload.eventId} else s.skipped,
         handlers := s.handlers - {worker})
  }

  function Do(s: State, a: Action): (r: State) {
    match a
    case Domain(d) => DoDomain(s, d)
    case Fetch(poller, limit, records) =>
      if poller in s.batches || records == [] || !IsSnapshot(s.rows, s.marked, limit, records) then s
      else s.(batches := s.batches[poller := Batch(records, false)])
    case Publish(poller, delivered, reported) => DoPublish(s, poller, delivered, reported)
    case Mark(poller, took, reported) => DoMark(s, poller, took, reported)
    case StopBatch(poller) => s.(batches := s.batches - {poller})
    case Deliver(worker, index) =>
      if worker in s.handlers || index >= |s.stream| || !s.stream[index].subject.RequestsCreated? then s
      else s.(handlers := s.handlers[worker := Handler(index, Received)])
    case Dedupe(worker, took, reported) => DoDedupe(s, worker, took, reported)
    case ApplyEvent(worker, ok) => DoApply(s, worker, ok)
    case Ack(worker, took) =>
      if worker !in s.handlers || !s.handlers[worker].stage.Done? then s
      else s.(acked := if took then s.acked + {s.handlers[worker].index} else s.acked,
              handlers := s.handlers - {worker})
    case Crash(worker) => DoCrash(s, worker)
  }

  function Run(s: State, actions: seq<Action>): (r: State) {
    Runs.Run(Do, s, actions)
  }

  // ------------------------------------------------------------------------------- the outbox table

  ghost predicate GoodRecord(r: Record) {
    && r.payload.eventId == r.eventId && r.payload.eventType == r.eventType
    && r.payload.occurredAt == r.occurredAt && Route(r.eventType).Some?
  }

  ghost predicate DistinctIds(rows: seq<Record>) {
    forall i, j :: 0 <= i < j < |rows| ==> rows[i].eventId != rows[j].eventId
  }

  /** The outbox holds exactly the committed events, serialised, under distinct ids. */
  ghost predicate TableMatchesLog(log: seq<Event>, rows: seq<Record>) {
    && |rows| == |log|
    && (forall i :: 0 <= i < |rows| ==> RecordOf(log[i]) == Some(rows[i]))
    && DistinctIds(rows)
  }

  ghost predicate TableInv(domain: Races.State, rows: seq<Record>) {
    Races.Inv(domain) && TableMatchesLog(domain.db.log, rows)
  }

  lemma RecordsAreGood(event: Event)
    requires RecordOf(event).Some?
    ensures GoodRecord(RecordOf(event).value)
  {
  }

  lemma TableExtends(log: seq<Event>, rows: seq<Record>, e: Event)
    requires TableMatchesLog(log, rows) && !Logged(log, e.eventId) && RecordOf(e).Some?
    ensures TableMatchesLog(log + [e], rows + [RecordOf(e).value])
  {
  }

  lemma NewIdIsNew(domain: Races.State, a: Races.Action)
    requires Races.Inv(domain) && Races.Do(Postgres, domain, a).db != domain.db
    ensures
      var log := Races.Do(Postgres, domain, a).db.log;
      log != [] && !Logged(domain.db.log, log[|log| - 1].eventId) && BuildPayload(log[|log| - 1]).Some?
      && log == domain.db.log + [log[|log| - 1]]
  {
  }

  /** Rows are only ever appended, one good record with a new id at a time. */
  lemma DomainStep(s: State, a: Races.Action)
    requires TableInv(s.domain, s.rows)
    ensures
      var t := DoDomain(s, a);
      && TableInv(t.domain, t.rows)
      && t == s.(domain := t.domain, rows := t.rows)
      && (t.rows == s.rows || (|t.rows| == |s.rows| + 1 && t.rows[..|s.rows|] == s.rows))
  {
    var t := Races.Do(Postgres, s.domain, a);
    Races.StepKeepsInv(Postgres, s.domain, a);
    if t.db != s.domain.db {
      NewIdIsNew(s.domain, a);
      TableExtends(s.domain.db.log, s.rows, t.db.log[|t.db.log| - 1]);
    }
  }

  // ------------------------------------------------------------------------------ publisher safety

  function MessageOf(r: Record): (m: Message)
    requires Route(r.eventType).Some?
  {
    Message(Route(r.eventType).value, r.payload)
  }

  ghost predicate SentAs(stream: seq<Message>, r: Record) {
    Route(r.eventType).Some? && MessageOf(r) in stream
  }

  ghost predicate IsRow(rows: seq<Record>, r: Record) {
    r in rows && GoodRecord(r)
  }

  ghost predicate FromRow(rows: seq<Record>, m: Message) {
    exists r :: IsRow(rows, r) && m == MessageOf(r)
  }

  ghost predicate MarkedRow(rows: seq<Record>, stream: seq<Message>, id: string) {
    exists r :: IsRow(rows, r) && r.eventId == id && SentAs(stream, r)
  }

  ghost predicate BatchOk(rows: seq<Record>, stream: seq<Message>, b: Batch) {
    && b.todo != []
    && (forall i :: 0 <= i < |b.todo| ==> IsRow(rows, b.todo[i]))
    && (b.sent ==> SentAs(stream, b.todo[0]))
  }

  /** Only committed payloads are published, on their routed subject, and only published rows are marked. */
  ghost predicate PublisherInv(s: State) {
    && (forall i :: 0 <= i < |s.rows| ==> GoodRecord(s.rows[i]))
    && (forall i :: 0 <= i < |s.stream| ==> FromRow(s.rows, s.stream[i]))
    && (forall id :: id in s.marked ==> MarkedRow(s.rows, s.stream, id))
    && (forall p :: p in s.batches ==> BatchOk(s.rows, s.stream, s.batches[p]))
  }

  /** The outbox mirrors the log, and the publisher works on nothing else. */
  ghost predicate Sound(s: State) {
    TableInv(s.domain, s.rows) && PublisherInv(s)
  }

  lemma PublisherGrows(s: State, t: State)
    requires PublisherInv(s)
    requires s.rows <= t.rows && s.stream <= t.stream
    ensures forall i :: 0 <= i < |s.stream| ==> FromRow(t.rows, t.stream[i])
    ensures forall id :: id in s.marked ==> MarkedRow(t.rows, t.stream, id)
    ensures forall p :: p in s.batches ==> BatchOk(t.rows, t.stream, s.batches[p])
  {
  }

  lemma PublishStep(s: State, poller: nat, delivered: bool, reported: bool)
    requires PublisherInv(s)
    ensures PublisherInv(DoPublish(s, poller, delivered, reported))
  {
  }

  lemma MarkStep(s: State, poller: nat, took: bool, reported: bool)
    requires PublisherInv(s)
    ensures PublisherInv(DoMark(s, poller, took, reported))
  {
  }

  lemma FetchStep(s: State, poller: nat, limit: nat, records: seq<Record>)
    requires PublisherInv(s)
    ensures PublisherInv(Do(s, Fetch(poller, limit, records)))
  {
  }

  lemma PublisherStep(s: State, a: Action)
    requires PublisherInv(s) && TableInv(s.domain, s.rows)
    ensures PublisherInv(Do(s, a)) && TableInv(Do(s, a).domain, Do(s, a).rows)
  {
    match a
    case Domain(d) =>
      var t := Do(s, a);
      DomainStep(s, d);
      PublisherGrows(s, t);
      forall i | 0 <= i < |t.rows|
        ensures GoodRecord(t.rows[i])
      {
        RecordsAreGood(t.domain.db.log[i]);
      }
    case Fetch(poller, limit, records) => FetchStep(s, poller, limit, records);
    case Publish(poller, delivered, reported) => PublishStep(s, poller, delivered, reported);
    case Mark(poller, took, reported) => MarkStep(s, poller, took, reported);
    case _ =>
  }
}
