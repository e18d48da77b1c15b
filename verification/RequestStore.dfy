/** The in-memory and PostgreSQL request stores: atomic commits and newest-first listings. */
module RequestStore {
  import opened Options
  import opened Lifecycle
  import opened Ordering

  /** The persisted tables: requests by id, and the outbox in commit order. */
  datatype Db = Db(requests: map<string, Request>, log: seq<Event>)

  datatype StoreKind = Memory | Postgres

  ghost predicate WellKeyed(requests: map<string, Request>) {
    forall id :: id in requests ==> requests[id].id == id
  }

  predicate Logged(log: seq<Event>, eventId: string) {
    exists i :: 0 <= i < |log| && log[i].eventId == eventId
  }

  /** PostgreSQL also rejects an unserialisable event and a repeated outbox key; memory does not look. */
  predicate Refused(kind: StoreKind, db: Db, event: Event) {
    kind.Postgres? && (BuildPayload(event).None? || Logged(db.log, event.eventId))
  }

  function CommitCreate(kind: StoreKind, db: Db, request: Request, event: Event): (r: Db) {
    if request.id in db.requests || Refused(kind, db, event) then db
    else Db(db.requests[request.id := request], db.log + [event])
  }

  /** Memory replaces the whole record; PostgreSQL updates the status column alone. */
  function CommitUpdate(kind: StoreKind, db: Db, request: Request, event: Event): (r: Db) {
    if request.id !in db.requests || Refused(kind, db, event) then db
    else
      var stored := if kind.Memory? then request else db.requests[request.id].(status := request.status);
      Db(db.requests[request.id := stored], db.log + [event])
  }

  datatype StoreError = DuplicateRequest | RequestNotFound | Unavailable

  datatype ListFilter = ListFilter(status: Option<Status>, subject: string, limit: int)

  predicate Matches(filter: ListFilter, request: Request) {
    && (filter.status.None? || request.status == filter.status.value)
    && (filter.subject == "" || request.subject == filter.subject)
  }

  predicate Newer(a: Request, b: Request) {
    a.createdAt > b.createdAt || (a.createdAt == b.createdAt && StringLess(b.id, a.id))
  }

  ghost function Matching(requests: map<string, Request>, filter: ListFilter): set<Request> {
    set r | r in requests.Values && Matches(filter, r)
  }

  /** The newest matches, newest first, cut at a positive limit. */
  ghost predicate IsListing(requests: map<string, Request>, filter: ListFilter, out: seq<Request>) {
    IsCut(Newer, Matching(requests, filter), filter.limit, out)
  }

  lemma NewerIsWeakOrder()
    ensures WeakOrder(Newer)
    ensures forall a: Request, b: Request :: a.id != b.id ==> Newer(a, b) || Newer(b, a)
  {
    StringLessIsStrictOrder();
  }

  /** A query has one answer, with min(limit, matches) rows, whatever order the map is walked in. */
  lemma ListingUnique(requests: map<string, Request>, filter: ListFilter, a: seq<Request>, b: seq<Request>)
    requires IsListing(requests, filter, a) && IsListing(requests, filter, b)
    ensures a == b
    ensures
      var matches := |Matching(requests, filter)|;
      |a| == if 0 < filter.limit < matches then filter.limit else matches
  {
    NewerIsWeakOrder();
    CutUnique(Newer, Matching(requests, filter), filter.limit, a, b);
    CutLength(Newer, Matching(requests, filter), filter.limit, a);
  }

  lemma SortedCutIsListing(requests: map<string, Request>, filter: ListFilter, matching: seq<Request>)
    requires WellKeyed(requests)
    requires Distinct(matching)
    requires forall r :: r in matching <==> r in Matching(requests, filter)
    ensures
      var sorted := Sort(Newer, matching);
      IsListing(requests, filter, if 0 < filter.limit < |sorted| then sorted[..filter.limit] else sorted)
  {
    NewerIsWeakOrder();
    assert Decides(Newer, matching) by {
      forall x, y | x in matching && y in matching
        ensures x == y || Newer(x, y) || Newer(y, x)
      {
        assert x in requests.Values && y in requests.Values;
      }
    }
    SortedPrefixIsCut(Newer, Matching(requests, filter), filter.limit, matching);
  }

  class MemoryStore {
    var requests: map<string, Request>
    var events: seq<Event>
    var failing: bool

    constructor ()
      ensures Contents() == Db(map[], []) && !failing
    {
      requests, events, failing := map[], [], false;
    }

    ghost function Contents(): Db
      reads this
    {
      Db(requests, events)
    }

    method CreateRequestWithEvent(request: Request, event: Event) returns (error: Option<StoreError>)
      modifies this
      ensures failing == old(failing)
      ensures Contents() == if failing then old(Contents()) else CommitCreate(Memory, old(Contents()), request, event)
      ensures error == if failing then Some(Unavailable)
                       else if request.id in old(requests) then Some(DuplicateRequest) else None
    {
      if failing {
        return Some(Unavailable);
      }
      if request.id in requests {
        return Some(DuplicateRequest);
      }
      requests := requests[request.id := request];
      events := events + [event];
      return None;
    }

    method GetRequest(id: string) returns (found: Option<Request>, error: Option<StoreError>)
      ensures error.None? <==> found.Some?
      ensures found.Some? <==> !failing && id in requests
      ensures found.Some? ==> found.value == requests[id]
      ensures error == Some(RequestNotFound) <==> !failing && id !in requests
    {
      if failing {
        return None, Some(Unavailable);
      }
      if id !in requests {
        return None, Some(RequestNotFound);
      }
      return Some(requests[id]), None;
    }

    method UpdateRequestStatusWithEvent(request: Request, event: Event) returns (error: Option<StoreError>)
      modifies this
      ensures failing == old(failing)
      ensures Contents() == if failing then old(Contents()) else CommitUpdate(Memory, old(Contents()), request, event)
      ensures error == if failing then Some(Unavailable)
                       else if request.id !in old(requests) then Some(RequestNotFound) else None
    {
      if failing {
        return Some(Unavailable);
      }
      if request.id !in requests {
        return Some(RequestNotFound);
      }
      requests := requests[request.id := request];
      events := events + [event];
      return None;
    }

    method ListRequests(filter: ListFilter) returns (out: seq<Request>, error: Option<StoreError>)
      requires WellKeyed(requests)
      ensures error == if failing then Some(Unavailable) else None
      ensures error.None? ==> IsListing(requests, filter, out)
    {
      if failing {
        return [], Some(Unavailable);
      }
      out := [];
      var remaining := requests.Keys;
      while remaining != {}
        invariant remaining <= requests.Keys
        invariant Distinct(out)
        invariant forall r :: r in out <==>
                    r in requests.Values && Matches(filter, r) && r.id !in remaining
        decreases |remaining|
      {
        var id :| id in remaining;
        var request := requests[id];
        ghost var before, rest := out, remaining;
        remaining := remaining - {id};
        if Matches(filter, request) {
          out := out + [request];
        }
        forall r
          ensures r in out <==> r in requests.Values && Matches(filter, r) && r.id !in remaining
        {
          assert r in requests.Values && r.id == id ==> r == request;
          assert r in out <==> r in before || (Matches(filter, request) && r == request);
        }
      }
      SortedCutIsListing(requests, filter, out);
      out := Sort(Newer, out);
      if filter.limit > 0 && |out| > filter.limit {
        out := out[..filter.limit];
      }
      return out, None;
    }
  }
}
