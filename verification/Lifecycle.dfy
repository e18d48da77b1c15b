/** The request aggregate, its lifecycle table and the events it emits. */
module Lifecycle {
  import opened Options

  /** A status column; `Unknown` stands for any text outside the lifecycle. */
  datatype Status = Created | Triaged | InProgress | Resolved | Closed | Cancelled | Unknown(text: string)

  datatype EventType = RequestCreated | StatusChanged | Unsupported(name: string)

  /** Instants with the second resolution of the stored timestamps. */
  type Time = int

  datatype Request = Request(
    id: string, title: string, description: string, subject: string, status: Status, createdAt: Time)

  datatype Event = Event(
    eventId: string, eventType: EventType, occurredAt: Time, request: Request, previousStatus: Option<Status>)

  /** Terminal statuses map to no targets. */
  const TRANSITIONS: map<Status, seq<Status>> := map[
    Created := [Triaged, Cancelled],
    Triaged := [InProgress, Cancelled],
    InProgress := [Resolved, Cancelled],
    Resolved := [Closed],
    Closed := [],
    Cancelled := []
  ]

  function ParseStatus(text: string): (r: Status)
    ensures r.Created? <==> text == "created"
    ensures r.Triaged? <==> text == "triaged"
    ensures r.InProgress? <==> text == "in_progress"
    ensures r.Resolved? <==> text == "resolved"
    ensures r.Closed? <==> text == "closed"
    ensures r.Cancelled? <==> text == "cancelled"
  {
    match text
    case "created" => Created
    case "triaged" => Triaged
    case "in_progress" => InProgress
    case "resolved" => Resolved
    case "closed" => Closed
    case "cancelled" => Cancelled
    case _ => Unknown(text)
  }

  predicate KnownStatus(status: Status)
    ensures KnownStatus(status) <==> !status.Unknown?
  {
    status in TRANSITIONS
  }

  predicate CanTransition(from: Status, to: Status) {
    from in TRANSITIONS && to in TRANSITIONS[from]
  }

  /** Distance from creation; the lifecycle only ever climbs. */
  function Rank(status: Status): (r: nat)
    ensures r <= 4
  {
    match status
    case Created => 0
    case Triaged => 1
    case InProgress => 2
    case Resolved => 3
    case _ => 4
  }

  /** Every edge climbs, leads to a known status, and leaves one that is neither closed nor cancelled. */
  lemma TransitionsClimb(from: Status, to: Status)
    requires CanTransition(from, to)
    ensures Rank(from) < Rank(to) && KnownStatus(to)
    ensures !from.Closed? && !from.Cancelled?
  {
    assert KnownStatus(from);
  }

  /** The immutable part of a request. */
  ghost predicate SameIdentity(a: Request, b: Request) {
    a.(status := b.status) == b
  }

  /** The wire body of an event, one shape per event type. */
  datatype Payload =
    | CreatedPayload(
        eventId: string, eventType: EventType, occurredAt: Time,
        id: string, title: string, status: Status, createdAt: Time)
    | StatusChangedPayload(
        eventId: string, eventType: EventType, occurredAt: Time,
        id: string, status: Status, previousStatus: Option<Status>, updatedAt: Time)

  function BuildPayload(event: Event): (r: Option<Payload>)
    ensures r.Some? <==> !event.eventType.Unsupported?
    ensures r.Some? ==>
      && r.value.eventId == event.eventId && r.value.eventType == event.eventType
      && r.value.occurredAt == event.occurredAt
      && r.value.id == event.request.id && r.value.status == event.request.status
      && (r.value.CreatedPayload? <==> event.eventType.RequestCreated?)
      && (r.value.CreatedPayload? ==>
            r.value.title == event.request.title && r.value.createdAt == event.request.createdAt)
      && (r.value.StatusChangedPayload? ==>
            r.value.previousStatus == event.previousStatus && r.value.updatedAt == event.occurredAt)
  {
    match event.eventType
    case RequestCreated =>
      Some(CreatedPayload(
        event.eventId, event.eventType, event.occurredAt,
        event.request.id, event.request.title, event.request.status, event.request.createdAt))
    case StatusChanged =>
      Some(StatusChangedPayload(
        event.eventId, event.eventType, event.occurredAt,
        event.request.id, event.request.status, event.previousStatus, event.occurredAt))
    case Unsupported(_) => None
  }
}
