/** The lives of a request: every status sequence that serialized calls can produce, and no other. */
module Lives {
  import opened Lifecycle
  import opened RequestStore
  import opened RequestService
  import opened StatusRaces
  import Runs

  const FULL_LIFE := [Created, Triaged, InProgress, Resolved, Closed]
  const CANCELLABLE := [Created, Triaged, InProgress]

  /** Part of the way from created to closed, or cancelled before it was resolved. */
  predicate IsLife(life: seq<Status>) {
    || (life != [] && life <= FULL_LIFE)
    || (|life| >= 2 && life[|life| - 1] == Cancelled && life[..|life| - 1] <= CANCELLABLE)
  }

  function Statuses(h: seq<Event>): (r: seq<Status>)
    ensures |r| == |h|
    ensures forall i :: 0 <= i < |h| ==> r[i] == h[i].request.status
  {
    seq(|h|, i requires 0 <= i < |h| => h[i].request.status)
  }

  /** Two statuses follow each other in some life exactly when the lifecycle table has that edge. */
  lemma EdgesAreLifeSteps(life: seq<Status>, next: Status)
    requires IsLife(life)
    ensures CanTransition(life[|life| - 1], next) <==> IsLife(life + [next])
  {
    var last, longer := life[|life| - 1], life + [next];
    assert longer[..|longer| - 1] == life;
    if life <= FULL_LIFE {
      assert life == FULL_LIFE[..|life|];
      assert longer <= FULL_LIFE <==> |life| < 5 && next == FULL_LIFE[|life|];
      assert life <= CANCELLABLE <==> |life| <= 3 by {
        assert |life| <= 3 ==> life == CANCELLABLE[..|life|];
      }
      FullLifeEdges(|life| - 1, next);
    } else {
      assert last == Cancelled && last !in CANCELLABLE && last !in FULL_LIFE;
      assert !(longer <= FULL_LIFE) by {
        assert longer[|life| - 1] == Cancelled;
      }
      assert !(life <= CANCELLABLE) by {
        assert life[|life| - 1] == Cancelled;
      }
    }
  }

  lemma FullLifeEdges(i: nat, next: Status)
    requires i < 5
    ensures CanTransition(FULL_LIFE[i], next) <==> (i < 4 && next == FULL_LIFE[i + 1]) || (i < 3 && next == Cancelled)
  {
  }

  lemma {:induction false} HistoryIsLife(row: Request, h: seq<Event>, n: nat)
    requires RowMatchesHistory(row, h) && Contiguous(h) && n < |h|
    ensures IsLife(Statuses(h[..n + 1]))
  {
    assert LegalEvent(h[n]);
    if n == 0 {
      assert Statuses(h[..1]) == [Created];
    } else {
      HistoryIsLife(row, h, n - 1);
      var life := Statuses(h[..n]);
      EdgesAreLifeSteps(life, h[n].request.status);
      assert Statuses(h[..n + 1]) == life + [h[n].request.status];
    }
  }

  /** In every serialized run the statuses a request went through are a life that ends at its stored status. */
  lemma SerializedLives(kind: StoreKind, calls: seq<Call>, id: string)
    requires id in Run(kind, INITIAL, Serialize(calls)).db.requests
    ensures
      var db := Run(kind, INITIAL, Serialize(calls)).db;
      var life := Statuses(History(db.log, id));
      IsLife(life) && life[|life| - 1] == db.requests[id].status
  {
    hide StatusRaces.Run;
    SerializedHistories(kind, calls, id);
    var db := Run(kind, INITIAL, Serialize(calls)).db;
    var h := History(db.log, id);
    HistoryIsLife(db.requests[id], h, |h| - 1);
    assert h[..|h|] == h;
  }

  // ------------------------------------------------------------------------------- every life occurs

  function EventName(n: nat): (r: string)
    ensures |r| == n + 1
  {
    seq(n + 1, _ => 'e')
  }

  /** One creation and one update per further status. */
  function CallsFor(id: string, life: seq<Status>): (r: seq<Call>)
    ensures |r| == |life|
  {
    if life == [] then []
    else
      var n := |life| - 1;
      CallsFor(id, life[..n]) +
      [if n == 0 then CallCreate("t", "", "u", id, EventName(0), 0) else CallUpdate(id, life[n], EventName(n), 0)]
  }

  lemma {:induction false} SerializeConcat(a: seq<Call>, b: seq<Call>)
    ensures Serialize(a + b) == Serialize(a) + Serialize(b)
  {
    hide Serialize;
    if a == [] {
      SerializeNothing();
      assert a + b == b && [] + Serialize(b) == Serialize(b);
    } else {
      var first, rest := a[0], a[1..];
      SerializeConcat(rest, b);
      SerializeFirst(first, rest);
      SerializeFirst(first, rest + b);
      assert a == [first] + rest;
      assert a + b == [first] + (rest + b);
      var x, y, z := Serialize([first]), Serialize(rest), Serialize(b);
      assert x + (y + z) == x + y + z;
    }
  }

  lemma SerializeNothing()
    ensures Serialize([]) == []
  {
  }

  lemma SerializeFirst(call: Call, rest: seq<Call>)
    ensures Serialize([call] + rest) == Serialize([call]) + Serialize(rest)
  {
    assert ([call] + rest)[1..] == rest && [call][1..] == [];
  }

  /** The state in which only this request exists, with the given life behind it. */
  ghost predicate Lived(s: State, id: string, life: seq<Status>) {
    && s.rpcs == map[] && id in s.db.requests && s.db.requests[id].id == id
    && life != [] && s.db.requests[id].status == life[|life| - 1]
    && |s.db.log| == |life|
    && (forall i :: 0 <= i < |life| ==>
          s.db.log[i].eventId == EventName(i) && s.db.log[i].request.id == id && s.db.log[i].request.status == life[i])
  }

  lemma BirthLived(kind: StoreKind, id: string)
    ensures Lived(Run(kind, INITIAL, Serialize(CallsFor(id, [Created]))), id, [Created])
  {
    var call := CallCreate("t", "", "u", id, EventName(0), 0);
    var calls := CallsFor(id, [Created]);
    assert [Created][..0] == [] && calls == [call];
    assert calls[1..] == [];
    var a := Create("t", "", "u", id, EventName(0), 0);
    assert Serialize(calls) == [a];
    OneAction(kind, INITIAL, a);
  }

  lemma OneAction(kind: StoreKind, s: State, a: Action)
    ensures Run(kind, s, [a]) == Do(kind, s, a)
  {
    var step := (s, a) => Do(kind, s, a);
    assert Runs.Run(step, s, [a]) == Runs.Run(step, step(s, a), [a][1..]);
  }

  lemma UpdateLived(kind: StoreKind, s: State, id: string, life: seq<Status>, next: Status)
    requires Lived(s, id, life) && CanTransition(life[|life| - 1], next)
    ensures
      var call := CallUpdate(id, next, EventName(|life|), 0);
      Lived(Run(kind, s, Serialize([call])), id, life + [next])
  {
    hide StatusRaces.Run, CanTransition;
    var call := CallUpdate(id, next, EventName(|life|), 0);
    var row := s.db.requests[id];
    assert s == State(s.db, map[]);
    SerializedUpdateCommits(kind, s.db, id, next, EventName(|life|), 0);
    SerializedUpdateEnds(kind, s, call);
    var (updated, e) := PlanUpdate(row, next, EventName(|life|), 0).value;
    forall i | 0 <= i < |s.db.log|
      ensures s.db.log[i].eventId != e.eventId
    {
      assert |s.db.log[i].eventId| == i + 1;
    }
    var t := CommitUpdate(kind, s.db, updated, e);
    assert t.log == s.db.log + [e] && t.requests[id].status == next;
  }

  lemma SerializedUpdateEnds(kind: StoreKind, s: State, call: Call)
    requires s.rpcs == map[] && call.CallUpdate?
    ensures Run(kind, s, Serialize([call])).rpcs == map[]
  {
    var actions := Serialize([call]);
    assert [call][1..] == [] && Serialize([call][1..]) == [];
    assert actions == [Read(0, call.requestId, call.newStatus), Write(0, call.eventId, call.now), Abandon(0)];
    SkipThree(kind, s, actions, []);
  }

  lemma {:induction false} CallsForLive(kind: StoreKind, id: string, life: seq<Status>)
    requires IsLife(life)
    ensures Lived(Run(kind, INITIAL, Serialize(CallsFor(id, life))), id, life)
  {
    hide StatusRaces.Run, Lived, CanTransition, Serialize;
    var n := |life| - 1;
    if n == 0 {
      assert life == [Created];
      BirthLived(kind, id);
    } else {
      var front := life[..n];
      assert life == front + [life[n]];
      FrontIsLife(life);
      CallsForLive(kind, id, front);
      EdgesAreLifeSteps(front, life[n]);
      var s := Run(kind, INITIAL, Serialize(CallsFor(id, front)));
      var call := CallUpdate(id, life[n], EventName(n), 0);
      UpdateLived(kind, s, id, front, life[n]);
      assert CallsFor(id, life) == CallsFor(id, front) + [call];
      SerializeConcat(CallsFor(id, front), [call]);
      RunTwice(kind, INITIAL, Serialize(CallsFor(id, front)), Serialize([call]));
    }
  }

  lemma RunTwice(kind: StoreKind, s: State, a: seq<Action>, b: seq<Action>)
    ensures Run(kind, s, a + b) == Run(kind, Run(kind, s, a), b)
  {
    Runs.Concat((s, a) => Do(kind, s, a), s, a, b);
  }

  lemma FrontIsLife(life: seq<Status>)
    requires IsLife(life) && |life| >= 2
    ensures IsLife(life[..|life| - 1])
  {
    var front := life[..|life| - 1];
    assert life == front + [life[|life| - 1]];
    if front <= CANCELLABLE {
      assert front == CANCELLABLE[..|front|] == FULL_LIFE[..|front|];
    }
  }

  lemma {:induction false} OnlyHistory(log: seq<Event>, id: string)
    requires forall i :: 0 <= i < |log| ==> log[i].request.id == id
    ensures History(log, id) == log
  {
    if log != [] {
      var n := |log| - 1;
      OnlyHistory(log[..n], id);
      assert log == log[..n] + [log[n]];
    }
  }

  /** Every life is the history of some serialized run, on either store and for any id. */
  lemma EveryLifeOccurs(kind: StoreKind, id: string, life: seq<Status>)
    requires IsLife(life)
    ensures
      var db := Run(kind, INITIAL, Serialize(CallsFor(id, life))).db;
      id in db.requests && Statuses(History(db.log, id)) == life
  {
    hide StatusRaces.Run, Serialize, CallsFor;
    CallsForLive(kind, id, life);
    var db := Run(kind, INITIAL, Serialize(CallsFor(id, life))).db;
    OnlyHistory(db.log, id);
    assert Statuses(db.log) == life;
  }
}
