/**
 Concurrent RPCs on one store. An update reads a row in one step and commits in a later one, with no
 lock between, so any number of half-done updates can overlap. Every sequence of actions is a run:
 an action that is not possible leaves the state alone.
 */
module StatusRaces {
  import opened Options
  import opened Lifecycle
  import opened Ordering
  import opened RequestStore
  import opened RequestService
  import Runs

  /** An update between its read and its commit. */
  datatype Pending = Pending(current: Request, newStatus: Status)

  datatype State = State(db: Db, rpcs: map<nat, Pending>)

  datatype Action =
    | Create(title: string, description: string, subject: string, requestId: string, eventId: string, now: Time)
    | Read(rpc: nat, requestId: string, newStatus: Status) // of a checked update
    | Write(rpc: nat, eventId: string, now: Time)
    | Abandon(rpc: nat) // a failed store call or a cancelled RPC

  const INITIAL := State(Db(map[], []), map[])

  function Do(kind: StoreKind, s: State, a: Action): (r: State) {
    match a
    case Create(title, description, subject, requestId, eventId, now) =>
      var plan := PlanCreate(title, description, subject, requestId, eventId, now);
      if plan.Err? then s else s.(db := CommitCreate(kind, s.db, plan.value.0, plan.value.1))
    case Read(rpc, requestId, newStatus) =>
      if rpc in s.rpcs || requestId !in s.db.requests then s
      else
        var current := s.db.requests[requestId];
        if !CanTransition(current.status, newStatus) then s
        else s.(rpcs := s.rpcs[rpc := Pending(current, newStatus)])
    case Write(rpc, eventId, now) =>
      if rpc !in s.rpcs then s
      else
        var p := s.rpcs[rpc];
        var plan := PlanUpdate(p.current, p.newStatus, eventId, now);
        if plan.Err? then s
        else State(CommitUpdate(kind, s.db, plan.value.0, plan.value.1), s.rpcs - {rpc})
    case Abandon(rpc) => s.(rpcs := s.rpcs - {rpc})
  }

  function Run(kind: StoreKind, s: State, actions: seq<Action>): (r: State)
  {
    Runs.Run((s, a) => Do(kind, s, a), s, actions)
  }

  // ---------------------------------------------------------------- what every interleaving keeps

  /** The events of one request, in commit order. */
  function History(log: seq<Event>, id: string): (h: seq<Event>) {
    if log == [] then []
    else
      var front, last := log[..|log| - 1], log[|log| - 1];
      if last.request.id == id then History(front, id) + [last] else History(front, id)
  }

  ghost predicate LegalEvent(e: Event) {
    || (e.eventType.RequestCreated? && e.request.status.Created?)
    || (e.eventType.StatusChanged? && e.previousStatus.Some? && CanTransition(e.previousStatus.value, e.request.status))
  }

  /** The stored row is the creation row with the status of the last event; no other event is a creation. */
  ghost predicate RowMatchesHistory(row: Request, h: seq<Event>) {
    && h != []
    && h[0].eventType.RequestCreated?
    && (forall i :: 0 < i < |h| ==> h[i].eventType.StatusChanged?)
    && (forall i :: 0 <= i < |h| ==> LegalEvent(h[i]) && SameIdentity(h[i].request, row))
    && h[|h| - 1].request.status == row.status
  }

  ghost predicate RowsMatchLog(db: Db) {
    && WellKeyed(db.requests)
    && (forall id :: id in db.requests ==> RowMatchesHistory(db.requests[id], History(db.log, id)))
    && (forall id :: id !in db.requests ==> History(db.log, id) == [])
  }

  ghost predicate SnapshotOf(p: Pending, requests: map<string, Request>) {
    && CanTransition(p.current.status, p.newStatus)
    && p.current.id in requests
    && SameIdentity(p.current, requests[p.current.id])
  }

  ghost predicate Inv(s: State) {
    && RowsMatchLog(s.db)
    && (forall rpc :: rpc in s.rpcs ==> SnapshotOf(s.rpcs[rpc], s.db.requests))
  }

  lemma {:induction false} HistoryMember(log: seq<Event>, i: nat)
    requires i < |log|
    ensures log[i] in History(log, log[i].request.id)
  {
    var id, front := log[i].request.id, log[..|log| - 1];
    if i < |front| {
      HistoryMember(front, i);
      assert front[i] == log[i];
    }
  }

  lemma HistoryAppend(log: seq<Event>, e: Event, id: string)
    ensures History(log + [e], id) == if e.request.id == id then History(log, id) + [e] else History(log, id)
  {
  }

  lemma HistoryAppendOthers(log: seq<Event>, e: Event)
    ensures forall id :: id != e.request.id ==> History(log + [e], id) == History(log, id)
  {
  }

  /** What an action does to the tables: nothing, or one legal event and the row it describes. */
  ghost predicate Commits(db: Db, t: Db, e: Event) {
    && LegalEvent(e)
    && (e.eventType.RequestCreated? <==> e.request.id !in db.requests)
    && (e.request.id in db.requests ==> SameIdentity(e.request, db.requests[e.request.id]))
    && t == Db(db.requests[e.request.id := e.request], db.log + [e])
  }

  lemma RowAfterAppend(db: Db, e: Event)
    requires RowsMatchLog(db) && LegalEvent(e)
    requires e.eventType.RequestCreated? <==> e.request.id !in db.requests
    requires e.request.id in db.requests ==> SameIdentity(e.request, db.requests[e.request.id])
    ensures RowMatchesHistory(e.request, History(db.log + [e], e.request.id))
  {
  }

  lemma AppendKeepsRows(db: Db, t: Db, e: Event)
    requires RowsMatchLog(db) && Commits(db, t, e)
    ensures RowsMatchLog(t)
  {
    RowAfterAppend(db, e);
    HistoryAppendOthers(db.log, e);
    forall id | id in t.requests
      ensures RowMatchesHistory(t.requests[id], History(t.log, id))
    {
      if id != e.request.id {
        assert RowMatchesHistory(db.requests[id], History(db.log, id));
      }
    }
  }

  function DrawnId(a: Action): (r: Option<string>) {
    match a
    case Create(_, _, _, _, eventId, _) => Some(eventId)
    case Write(_, eventId, _) => Some(eventId)
    case _ => None
  }

  ghost predicate StepEffect(db: Db, t: Db, a: Action) {
    t == db || (t.log != [] && Commits(db, t, t.log[|t.log| - 1]) && Some(t.log[|t.log| - 1].eventId) == DrawnId(a))
  }

  lemma WriteCommits(kind: StoreKind, s: State, rpc: nat, eventId: string, now: Time)
    requires rpc in s.rpcs && SnapshotOf(s.rpcs[rpc], s.db.requests)
    ensures StepEffect(s.db, Do(kind, s, Write(rpc, eventId, now)).db, Write(rpc, eventId, now))
  {
    var p := s.rpcs[rpc];
    var (row, e) := PlanUpdate(p.current, p.newStatus, eventId, now).value;
    var t := CommitUpdate(kind, s.db, row, e);
    if t != s.db {
      assert t.log[|t.log| - 1] == e && e.request == row;
      assert row == s.db.requests[row.id].(status := row.status);
      assert t.requests == s.db.requests[row.id := row];
    }
  }

  lemma StepCommits(kind: StoreKind, s: State, a: Action)
    requires Inv(s)
    ensures StepEffect(s.db, Do(kind, s, a).db, a)
  {
    match a
    case Write(rpc, eventId, now) =>
      if rpc in s.rpcs {
        WriteCommits(kind, s, rpc, eventId, now);
      }
    case _ =>
  }

  lemma SnapshotsSurvive(s: State, t: Db, e: Event)
    requires Inv(s) && Commits(s.db, t, e)
    ensures forall rpc :: rpc in s.rpcs ==> SnapshotOf(s.rpcs[rpc], t.requests)
    ensures forall id :: id in s.db.requests ==> id in t.requests && SameIdentity(s.db.requests[id], t.requests[id])
  {
  }

  lemma StepRpcs(kind: StoreKind, s: State, a: Action)
    requires Inv(s)
    ensures
      var t := Do(kind, s, a);
      forall rpc :: rpc in t.rpcs ==>
        (rpc in s.rpcs && t.rpcs[rpc] == s.rpcs[rpc]) || (t.db == s.db && SnapshotOf(t.rpcs[rpc], s.db.requests))
  {
  }

  /** One action of either store keeps the invariant and every identity. */
  lemma StepKeepsInv(kind: StoreKind, s: State, a: Action)
    requires Inv(s)
    ensures Inv(Do(kind, s, a))
    ensures forall id :: id in s.db.requests ==>
              id in Do(kind, s, a).db.requests && SameIdentity(s.db.requests[id], Do(kind, s, a).db.requests[id])
  {
    var t := Do(kind, s, a);
    StepRpcs(kind, s, a);
    StepCommits(kind, s, a);
    if t.db != s.db {
      var e := t.db.log[|t.db.log| - 1];
      AppendKeepsRows(s.db, t.db, e);
      SnapshotsSurvive(s, t.db, e);
    }
  }

  lemma {:induction false} RunKeepsInv(kind: StoreKind, s: State, actions: seq<Action>)
    requires Inv(s)
    ensures Inv(Run(kind, s, actions))
    ensures forall id :: id in s.db.requests ==>
              && id in Run(kind, s, actions).db.requests
              && SameIdentity(s.db.requests[id], Run(kind, s, actions).db.requests[id])
    decreases |actions|
  {
    if actions != [] {
      StepKeepsInv(kind, s, actions[0]);
      RunKeepsInv(kind, Do(kind, s, actions[0]), actions[1..]);
    }
  }

  /**
   For every interleaving on either store: each stored row carries the status of its last logged event
   and the identity it was created with, every logged change is an edge of the lifecycle table, and no
   event belongs to an unstored request.
   */
  lemma EveryInterleaving(kind: StoreKind, actions: seq<Action>)
    ensures
      var db := Run(kind, INITIAL, actions).db;
      && (forall id :: id in db.requests ==>
            db.requests[id].id == id && RowMatchesHistory(db.requests[id], History(db.log, id)))
      && (forall i :: 0 <= i < |db.log| ==> LegalEvent(db.log[i]) && db.log[i].request.id in db.requests)
  {
    RunKeepsInv(kind, INITIAL, actions);
    var db := Run(kind, INITIAL, actions).db;
    forall i | 0 <= i < |db.log|
      ensures LegalEvent(db.log[i]) && db.log[i].request.id in db.requests
    {
      HistoryMember(db.log, i);
    }
  }

  /** Along any run, from any point reached so far, no field of a request but its status ever changes. */
  lemma IdentityIsForever(kind: StoreKind, before: seq<Action>, after: seq<Action>)
    ensures
      var early := Run(kind, INITIAL, before).db.requests;
      var late := Run(kind, INITIAL, before + after).db.requests;
      forall id :: id in early ==> id in late && SameIdentity(early[id], late[id])
  {
    Runs.Concat((s, a) => Do(kind, s, a), INITIAL, before, after);
    RunKeepsInv(kind, INITIAL, before);
    RunKeepsInv(kind, Run(kind, INITIAL, before), after);
  }

  // ------------------------------------------------------------------- memory against PostgreSQL

  /** The fresh UUIDs a run draws for its events. */
  function EventIds(actions: seq<Action>): (r: seq<string>) {
    if actions == [] then []
    else (if DrawnId(actions[0]).Some? then [DrawnId(actions[0]).value] else []) + EventIds(actions[1..])
  }

  ghost predicate FreshFor(log: seq<Event>, ids: seq<string>) {
    Distinct(ids) && forall id :: id in ids ==> !Logged(log, id)
  }

  /** One action leaves both stores equal exactly when its event id is new or both refuse it. */
  lemma StoresAgreeOnStep(s: State, a: Action)
    requires Inv(s)
    ensures Do(Memory, s, a) == Do(Postgres, s, a)
       <==> Do(Memory, s, a).db == s.db || !Logged(s.db.log, Do(Memory, s, a).db.log[|s.db.log|].eventId)
  {
    var m, p := Do(Memory, s, a), Do(Postgres, s, a);
    if m.db != s.db {
      var e := m.db.log[|s.db.log|];
      assert m.db.log == s.db.log + [e];
      if Logged(s.db.log, e.eventId) {
        assert |p.db.log| == |s.db.log|;
      } else {
        assert p.db.log == m.db.log;
        assert p.db.requests == m.db.requests;
      }
    }
  }

  lemma LoggedAppend(log: seq<Event>, e: Event, id: string)
    ensures Logged(log + [e], id) <==> Logged(log, id) || id == e.eventId
  {
    var all := log + [e];
    if Logged(log, id) {
      var i :| 0 <= i < |log| && log[i].eventId == id;
      assert all[i].eventId == id;
    }
    assert all[|log|] == e;
  }

  lemma FreshStep(s: State, a: Action, rest: seq<string>)
    requires Inv(s)
    requires FreshFor(s.db.log, (if DrawnId(a).Some? then [DrawnId(a).value] else []) + rest)
    ensures Do(Memory, s, a) == Do(Postgres, s, a)
    ensures FreshFor(Do(Memory, s, a).db.log, rest)
  {
    var t := Do(Memory, s, a).db;
    var drawn := if DrawnId(a).Some? then [DrawnId(a).value] else [];
    var ids := drawn + rest;
    StoresAgreeOnStep(s, a);
    StepCommits(Memory, s, a);
    assert forall i :: 0 <= i < |rest| ==> ids[|drawn| + i] == rest[i];
    if t != s.db {
      var e := t.log[|t.log| - 1];
      assert e.eventId == ids[0] && ids[0] in ids;
      assert t.log[|s.db.log|] == e;
      forall id | id in rest
        ensures !Logged(t.log, id)
      {
        LoggedAppend(s.db.log, e, id);
        assert id in ids;
      }
    }
  }

  lemma {:induction false} StoresAgreeFrom(s: State, actions: seq<Action>)
    requires Inv(s) && FreshFor(s.db.log, EventIds(actions))
    ensures Run(Memory, s, actions) == Run(Postgres, s, actions)
    decreases |actions|
  {
    if actions != [] {
      FreshStep(s, actions[0], EventIds(actions[1..]));
      StepKeepsInv(Memory, s, actions[0]);
      StoresAgreeFrom(Do(Memory, s, actions[0]), actions[1..]);
    }
  }

  /** Replacing whole records is as good as updating the status column, however RPCs interleave. */
  lemma StoresAgree(actions: seq<Action>)
    requires Distinct(EventIds(actions))
    ensures Run(Memory, INITIAL, actions) == Run(Postgres, INITIAL, actions)
  {
    StoresAgreeFrom(INITIAL, actions);
  }

  // ------------------------------------------------------------------------------- stale writes

  /** Each event continues from the status the previous one left. */
  ghost predicate Contiguous(h: seq<Event>) {
    forall i :: 0 < i < |h| ==> h[i].previousStatus == Some(h[i - 1].request.status)
  }

  ghost predicate AllContiguous(log: seq<Event>) {
    forall id :: Contiguous(History(log, id))
  }

  /** The action commits an update whose snapshot no longer shows the stored status. */
  predicate StaleWrite(kind: StoreKind, s: State, a: Action) {
    && a.Write? && a.rpc in s.rpcs && Do(kind, s, a).db != s.db
    && s.rpcs[a.rpc].current.id in s.db.requests
    && s.rpcs[a.rpc].current.status != s.db.requests[s.rpcs[a.rpc].current.id].status
  }

  predicate NoStaleWrite(kind: StoreKind, s: State, actions: seq<Action>)
    decreases |actions|
  {
    actions == [] ||
    (!StaleWrite(kind, s, actions[0]) && NoStaleWrite(kind, Do(kind, s, actions[0]), actions[1..]))
  }

  lemma ContiguousAppend(log: seq<Event>, e: Event)
    ensures
      var h := History(log, e.request.id);
      AllContiguous(log + [e]) <==>
        AllContiguous(log) && (h == [] || e.previousStatus == Some(h[|h| - 1].request.status))
  {
    var h, h' := History(log, e.request.id), History(log + [e], e.request.id);
    HistoryAppend(log, e, e.request.id);
    HistoryAppendOthers(log, e);
    assert h' == h + [e];
    assert forall i :: 0 <= i < |h| ==> h'[i] == h[i];
    assert h'[|h|] == e;
    if AllContiguous(log + [e]) {
      assert Contiguous(h');
      forall id
        ensures Contiguous(History(log, id))
      {
        assert Contiguous(History(log + [e], id));
      }
    }
  }

  /** A committed change names the status its RPC had read. */
  lemma ChangeNamesSnapshot(kind: StoreKind, s: State, a: Action)
    requires Inv(s) && Do(kind, s, a).db != s.db
    ensures
      var t := Do(kind, s, a).db;
      var e := t.log[|t.log| - 1];
      e.request.id in s.db.requests ==>
        (StaleWrite(kind, s, a) <==> e.previousStatus != Some(s.db.requests[e.request.id].status))
  {
  }

  lemma ContiguousStep(kind: StoreKind, s: State, a: Action)
    requires Inv(s)
    ensures AllContiguous(Do(kind, s, a).db.log) <==> AllContiguous(s.db.log) && !StaleWrite(kind, s, a)
  {
    hide Do, StaleWrite, AllContiguous;
    var t := Do(kind, s, a).db;
    StepCommits(kind, s, a);
    StaleWriteCommits(kind, s, a);
    if t != s.db {
      var e := t.log[|t.log| - 1];
      ContiguousAppend(s.db.log, e);
      if e.request.id in s.db.requests {
        ChangeNamesSnapshot(kind, s, a);
        assert RowMatchesHistory(s.db.requests[e.request.id], History(s.db.log, e.request.id));
      } else {
        assert History(s.db.log, e.request.id) == [];
      }
    }
  }

  /** A stale write commits an event of a stored request. */
  lemma StaleWriteCommits(kind: StoreKind, s: State, a: Action)
    requires Inv(s)
    ensures StaleWrite(kind, s, a) ==>
      var t := Do(kind, s, a).db;
      t != s.db && t.log != [] && t.log[|t.log| - 1].request.id in s.db.requests
  {
    hide RowsMatchLog, RowMatchesHistory;
    if StaleWrite(kind, s, a) {
      var p := s.rpcs[a.rpc];
      assert SnapshotOf(p, s.db.requests);
      var (row, e) := PlanUpdate(p.current, p.newStatus, a.eventId, a.now).value;
      assert Do(kind, s, a).db == CommitUpdate(kind, s.db, row, e);
    }
  }

  lemma {:induction false} ContiguousFrom(kind: StoreKind, s: State, actions: seq<Action>)
    requires Inv(s)
    ensures AllContiguous(Run(kind, s, actions).db.log)
       <==> AllContiguous(s.db.log) && NoStaleWrite(kind, s, actions)
    decreases |actions|
  {
    if actions != [] {
      ContiguousStep(kind, s, actions[0]);
      StepKeepsInv(kind, s, actions[0]);
      ContiguousFrom(kind, Do(kind, s, actions[0]), actions[1..]);
    }
  }

  /** The log is a legal path per request if and only if no update committed over a stale snapshot. */
  lemma PathsIffNoStaleWrite(kind: StoreKind, actions: seq<Action>)
    ensures AllContiguous(Run(kind, INITIAL, actions).db.log) <==> NoStaleWrite(kind, INITIAL, actions)
  {
    ContiguousFrom(kind, INITIAL, actions);
  }

  const RACE := [
    Create("t", "", "u", "r", "e1", 0), Read(1, "r", Cancelled), Read(2, "r", Triaged),
    Write(1, "e2", 1), Write(2, "e3", 2)]

  lemma RaceUpToLastWrite() returns (s: State)
    ensures Run(Memory, INITIAL, RACE) == Do(Memory, s, RACE[4])
    ensures NoStaleWrite(Memory, INITIAL, RACE) ==> !StaleWrite(Memory, s, RACE[4])
    ensures |s.db.log| == 2 && s.db.log[1].request.status == Cancelled
    ensures
      var row := Request("r", "t", "", "u", Created, 0);
      s.db.requests == map["r" := row.(status := Cancelled)] && s.rpcs == map[2 := Pending(row, Triaged)]
  {
    var row := Request("r", "t", "", "u", Created, 0);
    var s1 := Do(Memory, INITIAL, RACE[0]);
    assert s1 == State(Db(map["r" := row], [Event("e1", RequestCreated, 0, row, None)]), map[]);
    var s2 := Do(Memory, s1, RACE[1]);
    assert s2 == s1.(rpcs := map[1 := Pending(row, Cancelled)]);
    var s3 := Do(Memory, s2, RACE[2]);
    assert s3 == s1.(rpcs := map[1 := Pending(row, Cancelled), 2 := Pending(row, Triaged)]);
    s := Do(Memory, s3, RACE[3]);
    SkipThree(Memory, INITIAL, RACE, RACE[3..]);
    assert RACE[3..][1..] == [RACE[4]];
  }

  /** Two operators race from the same row: the loser overwrites a terminal status. */
  lemma RaceRevivesCancelled()
    ensures
      var final := Run(Memory, INITIAL, RACE).db;
      && |final.log| == 3 && final.log[1].request.status == Cancelled
      && "r" in final.requests && final.requests["r"].status == Triaged
      && !AllContiguous(final.log)
  {
    var s := RaceUpToLastWrite();
    assert StaleWrite(Memory, s, RACE[4]);
    PathsIffNoStaleWrite(Memory, RACE);
  }

  // ---------------------------------------------------------------------------- serialized RPCs

  /** A whole update with nothing in between, or a creation. */
  datatype Call =
    | CallCreate(title: string, description: string, subject: string, requestId: string, eventId: string, now: Time)
    | CallUpdate(requestId: string, newStatus: Status, eventId: string, now: Time)

  function Serialize(calls: seq<Call>): (r: seq<Action>) {
    if calls == [] then []
    else
      (match calls[0]
       case CallCreate(t, d, u, id, e, now) => [Create(t, d, u, id, e, now)]
       case CallUpdate(id, to, e, now) => [Read(0, id, to), Write(0, e, now), Abandon(0)])
      + Serialize(calls[1..])
  }

  /** A serialized update has the effect that the service's update method promises. */
  lemma SerializedUpdateCommits(kind: StoreKind, db: Db, id: string, to: Status, e: string, now: Time)
    requires id in db.requests && CanTransition(db.requests[id].status, to)
    ensures PlanUpdate(db.requests[id], to, e, now).Ok?
    ensures
      var plan := PlanUpdate(db.requests[id], to, e, now).value;
      Run(kind, State(db, map[]), Serialize([CallUpdate(id, to, e, now)])).db == CommitUpdate(kind, db, plan.0, plan.1)
  {
    hide CommitUpdate;
    var s := State(db, map[]);
    var calls := [CallUpdate(id, to, e, now)];
    var actions := Serialize(calls);
    assert calls[1..] == [] && Serialize(calls[1..]) == [];
    assert actions == [Read(0, id, to), Write(0, e, now), Abandon(0)];
    SkipThree(kind, s, actions, []);
  }

  lemma UpdateCallIsFresh(kind: StoreKind, s: State, id: string, to: Status, e: string, now: Time)
    requires Inv(s) && s.rpcs == map[]
    ensures
      var s1 := Do(kind, s, Read(0, id, to));
      var s2 := Do(kind, s1, Write(0, e, now));
      && !StaleWrite(kind, s1, Write(0, e, now))
      && Do(kind, s2, Abandon(0)).rpcs == map[]
  {
  }

  lemma {:induction false} SerialRunsAreFresh(kind: StoreKind, s: State, calls: seq<Call>)
    requires Inv(s) && s.rpcs == map[]
    ensures NoStaleWrite(kind, s, Serialize(calls))
    ensures Run(kind, s, Serialize(calls)).rpcs == map[]
    decreases |calls|
  {
    if calls != [] {
      var rest := Serialize(calls[1..]);
      var a := Serialize(calls);
      var s1 := Do(kind, s, a[0]);
      StepKeepsInv(kind, s, a[0]);
      match calls[0]
      case CallCreate(_, _, _, _, _, _) =>
        assert a[1..] == rest;
        SerialRunsAreFresh(kind, s1, calls[1..]);
      case CallUpdate(id, to, e, now) =>
        var s2 := Do(kind, s1, a[1]);
        var s3 := Do(kind, s2, a[2]);
        StepKeepsInv(kind, s1, a[1]);
        StepKeepsInv(kind, s2, a[2]);
        UpdateCallIsFresh(kind, s, id, to, e, now);
        SerialRunsAreFresh(kind, s3, calls[1..]);
        SkipThree(kind, s, a, rest);
    }
  }

  lemma SkipThree(kind: StoreKind, s: State, a: seq<Action>, rest: seq<Action>)
    requires |a| >= 3 && a[3..] == rest
    ensures
      var s1 := Do(kind, s, a[0]);
      var s2 := Do(kind, s1, a[1]);
      var s3 := Do(kind, s2, a[2]);
      && Run(kind, s, a) == Run(kind, s3, rest)
      && (NoStaleWrite(kind, s, a) <==>
            !StaleWrite(kind, s, a[0]) && !StaleWrite(kind, s1, a[1]) && !StaleWrite(kind, s2, a[2])
            && NoStaleWrite(kind, s3, rest))
  {
    var s1 := Do(kind, s, a[0]);
    var s2 := Do(kind, s1, a[1]);
    assert a[1..][1..] == a[2..] && a[2..][1..] == rest;
    assert Run(kind, s1, a[1..]) == Run(kind, s2, a[2..]);
    assert NoStaleWrite(kind, s1, a[1..]) <==> !StaleWrite(kind, s1, a[1]) && NoStaleWrite(kind, s2, a[2..]);
  }

  lemma {:induction false} RankCountsChanges(row: Request, h: seq<Event>, n: nat)
    requires RowMatchesHistory(row, h) && Contiguous(h) && n < |h|
    ensures n <= Rank(h[n].request.status)
  {
    if n > 0 {
      RankCountsChanges(row, h, n - 1);
      assert LegalEvent(h[n]);
      TransitionsClimb(h[n].previousStatus.value, h[n].request.status);
    }
  }

  /**
   Served one at a time, each request has one creation event followed by a contiguous climb along the
   lifecycle that ends at its stored status, after at most four changes.
   */
  lemma SerializedHistories(kind: StoreKind, calls: seq<Call>, id: string)
    requires id in Run(kind, INITIAL, Serialize(calls)).db.requests
    ensures
      var db := Run(kind, INITIAL, Serialize(calls)).db;
      var h := History(db.log, id);
      && RowMatchesHistory(db.requests[id], h) && Contiguous(h) && |h| <= 5
  {
    var s := Run(kind, INITIAL, Serialize(calls));
    SerialRunsAreFresh(kind, INITIAL, calls);
    PathsIffNoStaleWrite(kind, Serialize(calls));
    RunKeepsInv(kind, INITIAL, Serialize(calls));
    var h := History(s.db.log, id);
    RankCountsChanges(s.db.requests[id], h, |h| - 1);
  }

  predicate Terminal(status: Status) {
    status.Closed? || status.Cancelled?
  }

  lemma TerminalStep(kind: StoreKind, s: State, a: Action, id: string)
    requires Inv(s) && !StaleWrite(kind, s, a)
    requires id in s.db.requests && Terminal(s.db.requests[id].status)
    ensures id in Do(kind, s, a).db.requests && Do(kind, s, a).db.requests[id] == s.db.requests[id]
  {
    var t := Do(kind, s, a);
    StepCommits(kind, s, a);
    if t.db != s.db {
      var e := t.db.log[|t.db.log| - 1];
      ChangeNamesSnapshot(kind, s, a);
      if e.request.id == id {
        TransitionsClimb(s.db.requests[id].status, e.request.status);
      }
    }
  }

  lemma {:induction false} TerminalFrom(kind: StoreKind, s: State, actions: seq<Action>, id: string)
    requires Inv(s) && NoStaleWrite(kind, s, actions)
    requires id in s.db.requests && Terminal(s.db.requests[id].status)
    ensures id in Run(kind, s, actions).db.requests
    ensures Run(kind, s, actions).db.requests[id] == s.db.requests[id]
    decreases |actions|
  {
    if actions != [] {
      TerminalStep(kind, s, actions[0], id);
      StepKeepsInv(kind, s, actions[0]);
      TerminalFrom(kind, Do(kind, s, actions[0]), actions[1..], id);
    }
  }

  /** Served one at a time, a closed or cancelled request never changes again. */
  lemma TerminalIsForever(kind: StoreKind, before: seq<Call>, after: seq<Call>, id: string)
    requires
      var s := Run(kind, INITIAL, Serialize(before));
      id in s.db.requests && Terminal(s.db.requests[id].status)
    ensures
      var s := Run(kind, INITIAL, Serialize(before));
      var t := Run(kind, s, Serialize(after));
      id in t.db.requests && t.db.requests[id] == s.db.requests[id]
  {
    var s := Run(kind, INITIAL, Serialize(before));
    RunKeepsInv(kind, INITIAL, Serialize(before));
    SerialRunsAreFresh(kind, INITIAL, before);
    SerialRunsAreFresh(kind, s, after);
    TerminalFrom(kind, s, Serialize(after), id);
  }
}
