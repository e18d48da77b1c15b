/** The four RPCs of the domain service, and what an actor can learn through them. */
module RequestService {
  import opened Options
  import opened Lifecycle
  import opened Ordering
  import opened RequestStore

  const ROLE_OPERATOR := "operator"
  const MAX_TITLE_LEN := 200
  const MAX_DESCRIPTION_LEN := 4000
  const DEFAULT_LIST_LIMIT := 50
  const MAX_LIST_LIMIT := 200

  datatype Code = InvalidArgument | PermissionDenied | NotFound | FailedPrecondition | Internal

  datatype Response<+T> = Ok(value: T) | Err(code: Code)

  datatype View = View(id: string, title: string, status: Status, createdAt: Time)

  datatype UpdateInput = UpdateInput(requestId: string, newStatus: string, actorSubject: string, actorRole: string)
  datatype GetInput = GetInput(requestId: string, actorSubject: string, actorRole: string)
  datatype ListInput = ListInput(status: string, subject: string, limit: int, actorSubject: string, actorRole: string)

  /** Go's unicode.IsSpace. */
  predicate IsSpace(c: char) {
    var n := c as int;
    || 0x09 <= n <= 0x0D || n in {0x20, 0x85, 0xA0, 0x1680, 0x2028, 0x2029, 0x202F, 0x205F, 0x3000}
    || 0x2000 <= n <= 0x200A
  }

  function TrimSpace(s: string): (r: string)
    ensures r != [] ==> !IsSpace(r[0]) && !IsSpace(r[|r| - 1])
    decreases |s|
  {
    if s == [] then []
    else if IsSpace(s[0]) then TrimSpace(s[1..])
    else if IsSpace(s[|s| - 1]) then TrimSpace(s[..|s| - 1])
    else s
  }

  /** Trimming removes white space at both ends and nothing else. */
  lemma {:induction false} TrimKeepsMiddle(s: string) returns (from: nat, to: nat)
    ensures from <= to <= |s| && TrimSpace(s) == s[from..to]
    ensures forall i :: 0 <= i < from || to <= i < |s| ==> IsSpace(s[i])
    decreases |s|
  {
    from, to := 0, |s|;
    if s != [] && IsSpace(s[0]) {
      from, to := TrimKeepsMiddle(s[1..]);
      from, to := from + 1, to + 1;
      assert forall i :: 0 < i < |s| ==> s[i] == s[1..][i - 1];
    } else if s != [] && IsSpace(s[|s| - 1]) {
      from, to := TrimKeepsMiddle(s[..|s| - 1]);
    }
  }

  predicate IsOperator(role: string) {
    TrimSpace(role) == ROLE_OPERATOR
  }

  function ToView(request: Request): (v: View) {
    View(request.id, request.title, request.status, request.createdAt)
  }

  function Views(requests: seq<Request>): (v: seq<View>)
    ensures |v| == |requests|
    ensures forall i :: 0 <= i < |requests| ==> v[i] == ToView(requests[i])
  {
    seq(|requests|, i requires 0 <= i < |requests| => ToView(requests[i]))
  }

  /** The row and event a creation would commit; ids and clock come from the environment. */
  function PlanCreate(
    title: string, description: string, subject: string, requestId: string, eventId: string, now: Time)
    : (r: Response<(Request, Event)>)
  {
    var trimmed := TrimSpace(title);
    if !(1 <= |trimmed| <= MAX_TITLE_LEN) || |description| > MAX_DESCRIPTION_LEN || subject == "" then
      Err(InvalidArgument)
    else
      var request := Request(requestId, trimmed, description, subject, Created, now);
      Ok((request, Event(eventId, RequestCreated, now, request, None)))
  }

  /** The request id and target status of a well-formed, authorised update. */
  function CheckUpdate(input: UpdateInput): (r: Response<(string, Status)>)
    ensures r.Ok? ==> KnownStatus(r.value.1) && IsOperator(input.actorRole)
  {
    var id := TrimSpace(input.requestId);
    var newStatus := ParseStatus(TrimSpace(input.newStatus));
    if id == "" || TrimSpace(input.actorSubject) == "" then Err(InvalidArgument)
    else if !IsOperator(input.actorRole) then Err(PermissionDenied)
    else if !KnownStatus(newStatus) then Err(InvalidArgument)
    else Ok((id, newStatus))
  }

  /** The row and event an update would commit, computed from the row that was read. */
  function PlanUpdate(current: Request, newStatus: Status, eventId: string, now: Time)
    : (r: Response<(Request, Event)>)
    ensures r.Ok? <==> CanTransition(current.status, newStatus)
  {
    if !CanTransition(current.status, newStatus) then Err(FailedPrecondition)
    else
      var updated := current.(status := newStatus);
      Ok((updated, Event(eventId, StatusChanged, now, updated, Some(current.status))))
  }

  function GetAnswer(requests: map<string, Request>, failing: bool, input: GetInput): (r: Response<View>) {
    var id := TrimSpace(input.requestId);
    var actor := TrimSpace(input.actorSubject);
    if id == "" || actor == "" then Err(InvalidArgument)
    else if failing then Err(Internal)
    else if id !in requests then Err(NotFound)
    else if !IsOperator(input.actorRole) && requests[id].subject != actor then Err(NotFound)
    else Ok(ToView(requests[id]))
  }

  function EffectiveLimit(limit: int): (r: int)
    ensures 1 <= r <= MAX_LIST_LIMIT
    ensures 1 <= limit <= MAX_LIST_LIMIT ==> r == limit
  {
    if limit <= 0 then DEFAULT_LIST_LIMIT else if limit > MAX_LIST_LIMIT then MAX_LIST_LIMIT else limit
  }

  function ListQuery(input: ListInput): (r: Response<ListFilter>)
    ensures r.Ok? ==> 1 <= r.value.limit <= MAX_LIST_LIMIT
  {
    var status := TrimSpace(input.status);
    var actor := TrimSpace(input.actorSubject);
    if status != "" && !KnownStatus(ParseStatus(status)) then Err(InvalidArgument)
    else if actor == "" then Err(InvalidArgument)
    else
      var subject := if IsOperator(input.actorRole) then TrimSpace(input.subject) else actor;
      Ok(ListFilter(if status == "" then None else Some(ParseStatus(status)), subject, EffectiveLimit(input.limit)))
  }

  ghost predicate ListAnswer(
    requests: map<string, Request>, failing: bool, input: ListInput, response: Response<seq<View>>)
  {
    match ListQuery(input)
    case Err(code) => response == Err(code)
    case Ok(filter) =>
      if failing then response == Err(Internal)
      else exists out :: IsListing(requests, filter, out) && response == Ok(Views(out))
  }

  /** A row the caller asked for and may see. */
  ghost predicate Asked(input: ListInput, r: Request) {
    && (TrimSpace(input.status) == "" || r.status == ParseStatus(TrimSpace(input.status)))
    && (if TrimSpace(input.actorRole) == "operator"
        then TrimSpace(input.subject) == "" || r.subject == TrimSpace(input.subject)
        else r.subject == TrimSpace(input.actorSubject))
  }

  /** The views show asked rows, newest first, and leave one out only if the limit is reached by newer ones. */
  ghost predicate Shows(requests: map<string, Request>, input: ListInput, rows: seq<Request>, views: seq<View>) {
    var limit := if input.limit <= 0 then 50 else if input.limit > 200 then 200 else input.limit;
    && |views| == |rows| <= limit
    && (forall i :: 0 <= i < |rows| ==>
          && views[i] == View(rows[i].id, rows[i].title, rows[i].status, rows[i].createdAt)
          && rows[i] in requests.Values && Asked(input, rows[i]))
    && (forall i, j :: 0 <= i < j < |rows| ==> ShownBefore(rows[i], rows[j]))
    && (forall r :: r in requests.Values && Asked(input, r) && r !in rows ==>
          |rows| == limit && forall i :: 0 <= i < |rows| ==> ShownBefore(rows[i], r))
  }

  ghost predicate ShownBefore(a: Request, b: Request) {
    a.createdAt > b.createdAt || (a.createdAt == b.createdAt && StringLess(b.id, a.id))
  }

  /** When a listing succeeds, and what it shows, in terms of the input and the stored rows. */
  lemma ListMeans(requests: map<string, Request>, failing: bool, input: ListInput, response: Response<seq<View>>)
    requires ListAnswer(requests, failing, input, response)
    ensures response.Ok? <==>
      && TrimSpace(input.actorSubject) != "" && !failing
      && (TrimSpace(input.status) == "" || !ParseStatus(TrimSpace(input.status)).Unknown?)
    ensures response.Ok? ==> exists rows :: Shows(requests, input, rows, response.value)
  {
    hide TrimSpace, ParseStatus, StringLess;
    if response.Ok? {
      var filter := ListQuery(input).value;
      var out :| IsListing(requests, filter, out) && response == Ok(Views(out));
      assert forall r :: r in requests.Values ==> (r in Matching(requests, filter) <==> Asked(input, r));
      forall i | 0 <= i < |out|
        ensures out[i] in requests.Values && Asked(input, out[i])
      {
        assert out[i] in out;
      }
      assert Shows(requests, input, out, response.value);
    }
  }

  /** The requests of one subject: all that a user who is not an operator may depend on. */
  ghost function OwnedBy(requests: map<string, Request>, subject: string): map<string, Request> {
    map id | id in requests && requests[id].subject == subject :: requests[id]
  }

  /** A user learns nothing about ids that belong to someone else, not even that they exist. */
  lemma GetNonInterference(a: map<string, Request>, b: map<string, Request>, failing: bool, input: GetInput)
    requires !IsOperator(input.actorRole)
    requires OwnedBy(a, TrimSpace(input.actorSubject)) == OwnedBy(b, TrimSpace(input.actorSubject))
    ensures GetAnswer(a, failing, input) == GetAnswer(b, failing, input)
  {
    var id := TrimSpace(input.requestId);
    var mine := OwnedBy(a, TrimSpace(input.actorSubject));
    if id in mine {
      assert id in OwnedBy(b, TrimSpace(input.actorSubject));
    } else {
      assert id !in OwnedBy(b, TrimSpace(input.actorSubject));
    }
  }

  /** Listings by a user are a function of that user's own requests. */
  lemma ListNonInterference(
    a: map<string, Request>, b: map<string, Request>, failing: bool, input: ListInput,
    fromA: Response<seq<View>>, fromB: Response<seq<View>>)
    requires !IsOperator(input.actorRole)
    requires OwnedBy(a, TrimSpace(input.actorSubject)) == OwnedBy(b, TrimSpace(input.actorSubject))
    requires ListAnswer(a, failing, input, fromA) && ListAnswer(b, failing, input, fromB)
    ensures fromA == fromB
  {
    if ListQuery(input).Ok? && !failing {
      var filter := ListQuery(input).value;
      assert Matching(a, filter) == Matching(b, filter) by {
        MatchingIsOwned(a, filter);
        MatchingIsOwned(b, filter);
      }
      var outA :| IsListing(a, filter, outA) && fromA == Ok(Views(outA));
      var outB :| IsListing(b, filter, outB) && fromB == Ok(Views(outB));
      assert IsListing(a, filter, outB);
      ListingUnique(a, filter, outA, outB);
    }
  }

  lemma MatchingIsOwned(requests: map<string, Request>, filter: ListFilter)
    requires filter.subject != ""
    ensures Matching(requests, filter) == Matching(OwnedBy(requests, filter.subject), filter)
  {
    var mine := OwnedBy(requests, filter.subject);
    forall r | r in Matching(requests, filter)
      ensures r in mine.Values
    {
      var id :| id in requests && requests[id] == r;
      assert mine[id] == r;
    }
    forall r | r in mine.Values
      ensures r in requests.Values
    {
      var id :| id in mine && mine[id] == r;
      assert requests[id] == r;
    }
  }

  /** GetRequest opens exactly the ids that an unlimited, unfiltered listing by the same actor shows. */
  lemma GetMatchesListing(requests: map<string, Request>, input: GetInput, shown: seq<Request>)
    requires WellKeyed(requests)
    requires TrimSpace(input.requestId) != "" && TrimSpace(input.actorSubject) != ""
    requires
      var subject := if IsOperator(input.actorRole) then "" else TrimSpace(input.actorSubject);
      IsListing(requests, ListFilter(None, subject, 0), shown)
    ensures GetAnswer(requests, false, input).Ok?
       <==> exists r :: r in shown && r.id == TrimSpace(input.requestId)
  {
    var id := TrimSpace(input.requestId);
    var subject := if IsOperator(input.actorRole) then "" else TrimSpace(input.actorSubject);
    var filter := ListFilter(None, subject, 0);
    if GetAnswer(requests, false, input).Ok? {
      assert requests[id] in requests.Values;
      assert requests[id] in Matching(requests, filter);
      assert requests[id] in shown;
    }
    if r :| r in shown && r.id == id {
      assert r in Matching(requests, filter);
      var key :| key in requests && requests[key] == r;
    }
  }

  class Service {
    const store: MemoryStore

    constructor (store: MemoryStore)
      ensures this.store == store
    {
      this.store := store;
    }

    method CreateRequest(
      title: string, description: string, subject: string, requestId: string, eventId: string, now: Time)
      returns (response: Response<View>)
      requires WellKeyed(store.requests)
      modifies store
      ensures WellKeyed(store.requests) && store.failing == old(store.failing)
      ensures
        var plan := PlanCreate(title, description, subject, requestId, eventId, now);
        && (plan.Err? ==> response == Err(plan.code) && store.Contents() == old(store.Contents()))
        && (plan.Ok? && !store.failing ==>
              store.Contents() == CommitCreate(Memory, old(store.Contents()), plan.value.0, plan.value.1))
        && (plan.Ok? && store.failing ==> store.Contents() == old(store.Contents()))
        && (response.Ok? <==> plan.Ok? && !store.failing && requestId !in old(store.requests))
        && (response.Ok? ==> response.value == ToView(plan.value.0))
      ensures response.Ok? <==>
        && 1 <= |TrimSpace(title)| <= 200 && |description| <= 4000 && subject != ""
        && !store.failing && requestId !in old(store.requests)
      ensures response.Ok? ==>
        var row := Request(requestId, TrimSpace(title), description, subject, Created, now);
        store.Contents() == Db(old(store.requests)[requestId := row],
                               old(store.Contents()).log + [Event(eventId, RequestCreated, now, row, None)])
    {
      var plan := PlanCreate(title, description, subject, requestId, eventId, now);
      if plan.Err? {
        return Err(plan.code);
      }
      var error := store.CreateRequestWithEvent(plan.value.0, plan.value.1);
      if error.Some? {
        return Err(Internal);
      }
      return Ok(ToView(plan.value.0));
    }

    /** Uninterrupted, an update is one read followed by one commit of what was read. */
    method UpdateRequestStatus(input: UpdateInput, eventId: string, now: Time) returns (response: Response<View>)
      requires WellKeyed(store.requests)
      modifies store
      ensures WellKeyed(store.requests) && store.failing == old(store.failing)
      ensures response.Err? ==> store.Contents() == old(store.Contents())
      ensures response.Ok? ==>
        && CheckUpdate(input).Ok?
        && var (id, newStatus) := CheckUpdate(input).value;
        && id in old(store.requests) && CanTransition(old(store.requests)[id].status, newStatus)
        && var plan := PlanUpdate(old(store.requests)[id], newStatus, eventId, now).value;
        && store.Contents() == CommitUpdate(Memory, old(store.Contents()), plan.0, plan.1)
        && response.value == ToView(plan.0)
      ensures response.Ok? <==>
        && CheckUpdate(input).Ok? && !old(store.failing)
        && CheckUpdate(input).value.0 in old(store.requests)
        && CanTransition(old(store.requests)[CheckUpdate(input).value.0].status, CheckUpdate(input).value.1)
      ensures
        var id, newStatus := TrimSpace(input.requestId), ParseStatus(TrimSpace(input.newStatus));
        && (response.Ok? <==>
              && id != "" && TrimSpace(input.actorSubject) != "" && TrimSpace(input.actorRole) == "operator"
              && !newStatus.Unknown? && !store.failing
              && id in old(store.requests) && CanTransition(old(store.requests)[id].status, newStatus))
        && (response.Ok? ==>
              var was := old(store.requests)[id];
              var row := was.(status := newStatus);
              store.Contents() == Db(old(store.requests)[id := row], old(store.Contents()).log
                + [Event(eventId, StatusChanged, now, row, Some(was.status))]))
    {
      var checked := CheckUpdate(input);
      if checked.Err? {
        return Err(checked.code);
      }
      var (id, newStatus) := checked.value;
      var current, missing := store.GetRequest(id);
      if missing == Some(RequestNotFound) {
        return Err(NotFound);
      }
      if missing.Some? {
        return Err(Internal);
      }
      var plan := PlanUpdate(current.value, newStatus, eventId, now);
      if plan.Err? {
        return Err(plan.code);
      }
      var error := store.UpdateRequestStatusWithEvent(plan.value.0, plan.value.1);
      if error.Some? {
        return Err(Internal);
      }
      return Ok(ToView(plan.value.0));
    }

    method GetRequest(input: GetInput) returns (response: Response<View>)
      ensures response == GetAnswer(store.requests, store.failing, input)
      ensures
        var id, actor := TrimSpace(input.requestId), TrimSpace(input.actorSubject);
        && (response.Ok? <==>
              && id != "" && actor != "" && !store.failing && id in store.requests
              && (TrimSpace(input.actorRole) == "operator" || store.requests[id].subject == actor))
        && (response.Ok? ==>
              var row := store.requests[id];
              response.value == View(row.id, row.title, row.status, row.createdAt))
        && (response.Err? && id != "" && actor != "" && !store.failing ==> response.code == NotFound)
    {
      var id := TrimSpace(input.requestId);
      if id == "" {
        return Err(InvalidArgument);
      }
      var actor := TrimSpace(input.actorSubject);
      if actor == "" {
        return Err(InvalidArgument);
      }
      var found, error := store.GetRequest(id);
      if error == Some(RequestNotFound) {
        return Err(NotFound);
      }
      if error.Some? {
        return Err(Internal);
      }
      if !IsOperator(input.actorRole) && found.value.subject != actor {
        return Err(NotFound);
      }
      return Ok(ToView(found.value));
    }

    method ListRequests(input: ListInput) returns (response: Response<seq<View>>)
      requires WellKeyed(store.requests)
      ensures ListAnswer(store.requests, store.failing, input, response)
      ensures response.Ok? ==> exists rows :: Shows(store.requests, input, rows, response.value)
    {
      hide Shows;
      var query := ListQuery(input);
      if query.Err? {
        return Err(query.code);
      }
      var requests, error := store.ListRequests(query.value);
      if error.Some? {
        return Err(Internal);
      }
      var out: seq<View> := [];
      for i := 0 to |requests|
        invariant out == Views(requests[..i])
      {
        out := out + [ToView(requests[i])];
      }
      assert requests[..|requests|] == requests;
      response := Ok(out);
      ListMeans(store.requests, store.failing, input, response);
    }
  }
}
