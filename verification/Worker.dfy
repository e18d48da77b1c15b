/** The event consumer as code: the in-memory dedupe table, and the subscription callback as a protocol run. */
module Worker {
  import opened Options
  import opened Lifecycle
  import opened Delivery
  import opened Actors
  import opened Publisher

  datatype HandleError = Invalid | DedupeFailed | ApplyFailed

  class MemoryDedupe {
    var seen: set<string>

    constructor ()
      ensures seen == {}
    {
      seen := {};
    }

    method MarkProcessed(eventId: string) returns (isNew: bool)
      modifies this
      ensures seen == old(seen) + {eventId}
      ensures isNew <==> eventId !in old(seen)
    {
      if eventId in seen {
        return false;
      }
      seen := seen + {eventId};
      return true;
    }
  }

  /** The protocol steps of one callback; `isNew` is what the dedupe table answered. */
  function CallbackActions(
    id: nat, index: nat, payload: Payload, isNew: bool, dedupe: Outcome, applyOk: bool, ackOk: bool)
    : (r: seq<Action>)
  {
    [Deliver(id, index), Dedupe(id, !dedupe.Refused?, dedupe.Succeeded?)]
    + (if !Acceptable(payload) || !dedupe.Succeeded? then []
       else if !isNew then [Ack(id, ackOk)]
       else if applyOk then [ApplyEvent(id, true), Ack(id, ackOk)]
       else [ApplyEvent(id, false)])
  }

  class Consumer {
    var world: State
    const id: nat
    ghost var history: seq<Action>

    ghost predicate Valid()
      reads this
    {
      world == Run(INITIAL, history)
    }

    constructor (actions: seq<Action>, id: nat)
      ensures Valid() && history == actions && this.id == id
    {
      this.world, this.id, this.history := Run(INITIAL, actions), id, actions;
    }

    /** One remote call, after the other processes have run for a while. */
    method Call(others: seq<Action>, a: Action)
      requires Valid() && Foreign(Actors.Worker(id), others) && By(Actors.Worker(id), a)
      modifies this
      ensures Valid()
      ensures world == Do(Run(old(world), others), a) && Grows(old(world), world)
      ensures Own(Actors.Worker(id), history) == old(Own(Actors.Worker(id), history)) + [a]
    {
      hide Do, By;
      RunGrows(world, others);
      StepGrows(Run(world, others), a);
      Extend(Actors.Worker(id), history, others, a);
      history := history + (others + [a]);
      world := Do(Run(world, others), a);
    }

    method Receive(others: seq<Action>, index: nat) returns (payload: Payload)
      requires Valid() && Foreign(Actors.Worker(id), others) && id !in world.handlers
      requires index < |world.stream| && world.stream[index].subject.RequestsCreated?
      modifies this
      ensures Valid() && payload == old(world).stream[index].payload
      ensures world == Do(Run(old(world), others), Deliver(id, index))
      ensures index < |world.stream| && world.stream[index] == old(world).stream[index]
      ensures id in world.handlers && world.handlers[id] == Handler(index, Received)
      ensures Own(Actors.Worker(id), history) == old(Own(Actors.Worker(id), history)) + [Deliver(id, index)]
    {
      payload := world.stream[index].payload;
      ForeignKeepsMine(Actors.Worker(id), world, others);
      Call(others, Deliver(id, index));
    }

    /** The dedupe insert; the handler goes on only if its outcome is known. */
    method MarkProcessed(others: seq<Action>, outcome: Outcome) returns (isNew: bool)
      requires Valid() && Foreign(Actors.Worker(id), others)
      requires id in world.handlers && world.handlers[id].stage.Received?
      requires world.handlers[id].index < |world.stream|
      modifies this
      ensures Valid()
      ensures
        var index := old(world).handlers[id].index;
        var payload := old(world).stream[index].payload;
        && isNew == (payload.eventId !in Run(old(world), others).processed)
        && index < |world.stream| && world.stream[index] == old(world).stream[index]
        && (Acceptable(payload) && outcome.Succeeded? ==>
              id in world.handlers && world.handlers[id] == Handler(index, if isNew then Fresh else Done))
        && (!(Acceptable(payload) && outcome.Succeeded?) ==> id !in world.handlers)
        && (Acceptable(payload) && outcome.Succeeded? ==> payload.eventId in world.processed)
      ensures Own(Actors.Worker(id), history) ==
              old(Own(Actors.Worker(id), history)) + [Dedupe(id, !outcome.Refused?, outcome.Succeeded?)]
    {
      ForeignKeepsMine(Actors.Worker(id), world, others);
      var now := Run(world, others);
      isNew := now.stream[world.handlers[id].index].payload.eventId !in now.processed;
      Call(others, Dedupe(id, !outcome.Refused?, outcome.Succeeded?));
    }

    method Apply(others: seq<Action>, ok: bool)
      requires Valid() && Foreign(Actors.Worker(id), others)
      requires id in world.handlers && world.handlers[id].stage.Fresh?
      requires world.handlers[id].index < |world.stream|
      modifies this
      ensures Valid()
      ensures ok ==> id in world.handlers && world.handlers[id].stage.Done?
      ensures !ok ==> id !in world.handlers
      ensures old(world).processed <= world.processed
      ensures Own(Actors.Worker(id), history) == old(Own(Actors.Worker(id), history)) + [ApplyEvent(id, ok)]
    {
      ForeignKeepsMine(Actors.Worker(id), world, others);
      Call(others, ApplyEvent(id, ok));
    }

    method Acknowledge(others: seq<Action>, ok: bool)
      requires Valid() && Foreign(Actors.Worker(id), others)
      requires id in world.handlers && world.handlers[id].stage.Done?
      modifies this
      ensures Valid() && id !in world.handlers && old(world).processed <= world.processed
      ensures Own(Actors.Worker(id), history) == old(Own(Actors.Worker(id), history)) + [Ack(id, ok)]
    {
      ForeignKeepsMine(Actors.Worker(id), world, others);
      Call(others, Ack(id, ok));
    }

    /**
     The subscription callback: Handle, then Ack when it returned nil. `others(k)` is what the rest of the
     system does before the k-th call. The side effect runs at most once, exactly when the payload is
     acceptable and this callback's dedupe insert was the first for the event id; a message is
     acknowledged exactly when Handle returned nil.
     */
    method OnMessage(index: nat, dedupe: Outcome, applyOk: bool, ackOk: bool, others: nat -> seq<Action>)
      returns (error: Option<HandleError>, ghost isNew: bool)
      requires Valid() && id !in world.handlers
      requires index < |world.stream| && world.stream[index].subject.RequestsCreated?
      requires forall k :: Foreign(Actors.Worker(id), others(k))
      modifies this
      ensures Valid() && id !in world.handlers
      ensures
        var payload := old(world).stream[index].payload;
        var atInsert := Run(Do(Run(old(world), others(0)), Deliver(id, index)), others(1));
        && isNew == (payload.eventId !in atInsert.processed)
        && (Acceptable(payload) && dedupe.Succeeded? ==> payload.eventId in world.processed)
        && (error == Some(Invalid) <==> !Acceptable(payload))
        && (error == Some(DedupeFailed) <==> Acceptable(payload) && !dedupe.Succeeded?)
        && (error == Some(ApplyFailed) <==> Acceptable(payload) && dedupe.Succeeded? && isNew && !applyOk)
        && Own(Actors.Worker(id), history) == old(Own(Actors.Worker(id), history))
           + CallbackActions(id, index, payload, isNew, dedupe, applyOk, ackOk)
    {
      hide Do, By, Acceptable;
      error := None;
      var payload := Receive(others(0), index);
      var first := MarkProcessed(others(1), dedupe);
      isNew := first;
      if !Acceptable(payload) {
        return Some(Invalid), isNew;
      }
      if !dedupe.Succeeded? {
        return Some(DedupeFailed), isNew;
      }
      if first {
        Apply(others(2), applyOk);
        if !applyOk {
          return Some(ApplyFailed), isNew;
        }
      }
      Acknowledge(others(3), ackOk);
    }
  }
}
