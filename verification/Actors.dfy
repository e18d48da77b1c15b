/** Whose action is whose, and what the rest of the system may do between two calls of one process. */
module Actors {
  import opened Delivery
  import Runs

  datatype Actor = Poller(id: nat) | Worker(id: nat)

  predicate By(actor: Actor, a: Action) {
    match a
    case Domain(_) => false
    case Fetch(poller, _, _) => actor == Poller(poller)
    case Publish(poller, _, _) => actor == Poller(poller)
    case Mark(poller, _, _) => actor == Poller(poller)
    case StopBatch(poller) => actor == Poller(poller)
    case Deliver(worker, _) => actor == Worker(worker)
    case Dedupe(worker, _, _) => actor == Worker(worker)
    case ApplyEvent(worker, _) => actor == Worker(worker)
    case Ack(worker, _) => actor == Worker(worker)
    case Crash(worker) => actor == Worker(worker)
  }

  /** The actions of one process within a run. */
  function Own(actor: Actor, trace: seq<Action>): (r: seq<Action>) {
    if trace == [] then []
    else (if By(actor, trace[0]) then [trace[0]] else []) + Own(actor, trace[1..])
  }

  ghost predicate Foreign(actor: Actor, actions: seq<Action>) {
    forall i :: 0 <= i < |actions| ==> !By(actor, actions[i])
  }

  lemma OwnFirst(actor: Actor, a: Action, rest: seq<Action>)
    ensures Own(actor, [a] + rest) == if By(actor, a) then [a] + Own(actor, rest) else Own(actor, rest)
  {
    hide By;
    assert ([a] + rest)[1..] == rest;
  }

  lemma OwnNothing(actor: Actor)
    ensures Own(actor, []) == []
  {
  }

  lemma {:induction false} OwnConcat(actor: Actor, a: seq<Action>, b: seq<Action>)
    ensures Own(actor, a + b) == Own(actor, a) + Own(actor, b)
  {
    hide By, Own;
    var x, y := Own(actor, a), Own(actor, b);
    if a == [] {
      OwnNothing(actor);
      assert a + b == b && [] + y == y;
    } else {
      var first, rest := a[0], a[1..];
      var z := Own(actor, rest);
      OwnConcat(actor, rest, b);
      OwnFirst(actor, first, rest);
      OwnFirst(actor, first, rest + b);
      assert a == [first] + rest;
      assert a + b == [first] + (rest + b);
      assert [first] + (z + y) == [first] + z + y;
    }
  }

  lemma {:induction false} ForeignOwnsNothing(actor: Actor, actions: seq<Action>)
    requires Foreign(actor, actions)
    ensures Own(actor, actions) == []
  {
    if actions != [] {
      ForeignOwnsNothing(actor, actions[1..]);
    }
  }

  lemma OneStep(s: State, a: Action)
    ensures Run(s, [a]) == Do(s, a)
  {
    assert Runs.Run(Do, s, [a]) == Runs.Run(Do, Do(s, a), [a][1..]);
  }

  /** Appending others' actions and one own action to a history. */
  lemma Extend(actor: Actor, history: seq<Action>, others: seq<Action>, a: Action)
    requires Foreign(actor, others) && By(actor, a)
    ensures Run(INITIAL, history + (others + [a])) == Do(Run(Run(INITIAL, history), others), a)
    ensures Own(actor, history + (others + [a])) == Own(actor, history) + [a]
  {
    hide Do, By;
    Runs.Concat(Do, INITIAL, history, others + [a]);
    Runs.Concat(Do, Run(INITIAL, history), others, [a]);
    OneStep(Run(Run(INITIAL, history), others), a);
    OwnConcat(actor, history, others + [a]);
    OwnConcat(actor, others, [a]);
    ForeignOwnsNothing(actor, others);
    assert Own(actor, [a]) == [a];
  }

  /** What another process can change of a poller's batch and a worker's handler: nothing. */
  lemma ForeignStep(actor: Actor, s: State, a: Action)
    requires !By(actor, a)
    ensures actor.Poller? ==>
      && (actor.id in Do(s, a).batches <==> actor.id in s.batches)
      && (actor.id in s.batches ==> Do(s, a).batches[actor.id] == s.batches[actor.id])
    ensures actor.Worker? ==>
      && (actor.id in Do(s, a).handlers <==> actor.id in s.handlers)
      && (actor.id in s.handlers ==> Do(s, a).handlers[actor.id] == s.handlers[actor.id])
    ensures s.stream <= Do(s, a).stream
  {
  }

  lemma {:induction false} ForeignKeepsMine(actor: Actor, s: State, actions: seq<Action>)
    requires Foreign(actor, actions)
    ensures actor.Poller? ==>
      && (actor.id in Run(s, actions).batches <==> actor.id in s.batches)
      && (actor.id in s.batches ==> Run(s, actions).batches[actor.id] == s.batches[actor.id])
    ensures actor.Worker? ==>
      && (actor.id in Run(s, actions).handlers <==> actor.id in s.handlers)
      && (actor.id in s.handlers ==> Run(s, actions).handlers[actor.id] == s.handlers[actor.id])
    ensures s.stream <= Run(s, actions).stream
    decreases |actions|
  {
    hide Do;
    if actions != [] {
      ForeignStep(actor, s, actions[0]);
      ForeignKeepsMine(actor, Do(s, actions[0]), actions[1..]);
    }
  }

  /** Reachable states satisfy the publisher's invariant. */
  /** What no step takes back: messages in the stream, published rows and processed ids. */
  ghost predicate Grows(s: State, t: State) {
    s.stream <= t.stream && s.marked <= t.marked && s.processed <= t.processed
  }

  lemma GrowsTwice(s: State, t: State, u: State)
    requires Grows(s, t) && Grows(t, u)
    ensures Grows(s, u)
  {
  }

  lemma StepGrows(s: State, a: Action)
    ensures Grows(s, Do(s, a))
  {
  }

  lemma {:induction false} RunGrows(s: State, actions: seq<Action>)
    ensures Grows(s, Run(s, actions))
    decreases |actions|
  {
    hide Do;
    if actions != [] {
      StepGrows(s, actions[0]);
      RunGrows(Do(s, actions[0]), actions[1..]);
    }
  }

  lemma {:induction false} SoundFrom(s: State, actions: seq<Action>)
    requires Sound(s)
    ensures Sound(Run(s, actions))
    decreases |actions|
  {
    hide Do, TableInv, PublisherInv;
    if actions != [] {
      PublisherStep(s, actions[0]);
      SoundFrom(Do(s, actions[0]), actions[1..]);
    }
  }

  lemma ReachableIsSound(history: seq<Action>)
    ensures Sound(Run(INITIAL, history))
  {
    SoundFrom(INITIAL, history);
  }
}
