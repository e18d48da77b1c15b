/** What every history of executor calls guarantees. */
module ExecutorAudit {
  import opened Options
  import opened Json
  import opened Utf8
  import opened CanonicalJson
  import opened Encodability
  import opened Hashing
  import opened Capability
  import opened Registry
  import opened Tools
  import opened Evidence
  import opened Executor
  import Runs

  // ----------------------------------------------------------------------------------------- one call

  /** The conditions under which a tool may run, in no particular order. */
  ghost predicate Authorised(cfg: Config, s: State, q: Request, w: World) {
    && q.runId in s.runs
    && w.policy.Some? && w.policy.value.allow
    && TokenGrants(cfg.mac, s.runs, q, w.now)
    && q.tool in s.tools && s.tools[q.tool].scope == q.scope
    && cfg.conforms(s.tools[q.tool].argsSchema, JObj(q.args))
  }

  /** The token is genuine, unexpired, of a live run, and for this tool and scope. */
  ghost predicate TokenGrants(mac: Mac, runs: Table, q: Request, now: int) {
    && DecodeToken(mac, q.token).Decoded?
    && var c := DecodeToken(mac, q.token).claims;
       Live(runs, c.runId) && now <= c.expiresAt && c.tool == q.tool && c.scope == q.scope
  }

  ghost predicate Succeeds(cfg: Config, s: State, q: Request, w: World) {
    && Authorised(cfg, s, q, w)
    && w.produced.Some? && cfg.conforms(s.tools[q.tool].resultSchema, JObj(w.produced.value))
  }

  lemma PassIffAuthorised(cfg: Config, s: State, q: Request, w: World)
    ensures Gates(cfg, s, q, w).Pass? <==> Authorised(cfg, s, q, w)
  {
    hide CheckAnswer, DecodeToken;
    ValidMeans(cfg.mac, s.runs, q.token, q.tool, q.scope, w.now);
  }

  /** The handler runs at most once per call, on the call's own arguments, exactly when the call is authorised. */
  lemma HandlerRunsExactlyWhenAuthorised(cfg: Config, s: State, q: Request, w: World)
    ensures Exec(cfg, s, q, w).0.calls ==
            s.calls + if Authorised(cfg, s, q, w) then [HandlerCall(q.tool, q.args)] else []
  {
    hide Gates, Finding, Authorised, RecordText, ResultOf;
    PassIffAuthorised(cfg, s, q, w);
  }

  /** The payload of a record can be encoded exactly when the tool name, arguments and detail are Unicode text. */
  lemma RecordIsEncodable(q: Request, detail: Detail)
    ensures Encodable(RecordText(q, detail)) <==>
            Scalar(q.tool) && ScalarJson(JObj(q.args)) && ScalarJson(DetailJson(detail))
  {
    hide Print, SortKeys, DetailJson, Scalar;
    EncodableIffScalar(SPACED, RecordJson(q, detail));
    KeysScalar();
    var fields := RecordJson(q, detail).fields;
    assert ScalarField(fields[0]) <==> ScalarJson(JStr(q.tool));
    assert ScalarField(fields[1]) <==> ScalarJson(JObj(q.args));
    assert ScalarField(fields[2]) <==> ScalarJson(DetailJson(detail));
    assert ScalarJson(JObj(fields)) <==> ScalarField(fields[0]) && ScalarField(fields[1]) && ScalarField(fields[2]);
  }

  lemma KeysScalar()
    ensures Scalar(Ascii("tool")) && Scalar(Ascii("args")) && Scalar(Ascii("detail"))
  {
  }

  /** A call raises exactly on an unknown run, a raising policy or token check, or a record that cannot be encoded. */
  lemma RaisesExactly(cfg: Config, s: State, q: Request, w: World)
    ensures Exec(cfg, s, q, w).1.ExecutionRaised? <==>
            || q.runId !in s.runs
            || w.policy.None?
            || (!w.policy.value.allow && w.policy.value.reasonCodes == [])
            || (w.policy.value.allow && DecodeToken(cfg.mac, q.token).Raised?)
            || !Scalar(q.tool) || !ScalarJson(JObj(q.args))
            || !ScalarJson(DetailJson(Finding(cfg, s, q, w).value))
  {
    hide RecordText, Encodable, EncodeAll, ResultOf, DecodeToken, Scalar, ScalarJson, ReasonText, DetailJson;
    var finding := Finding(cfg, s, q, w);
    if finding.Some? {
      RecordIsEncodable(q, finding.value);
    }
  }

  /** An authorised call whose arguments hold a surrogate runs its tool and then leaves no trace of it. */
  lemma HandlerRunsUnrecorded(cfg: Config, s: State, q: Request, w: World)
    requires Authorised(cfg, s, q, w) && !ScalarJson(JObj(q.args))
    ensures Exec(cfg, s, q, w) == (s.(calls := s.calls + [HandlerCall(q.tool, q.args)]), ExecutionRaised)
  {
    hide RecordText, Encodable, EncodeAll, ResultOf, DecodeToken, Scalar, ScalarJson, Authorised;
    PassIffAuthorised(cfg, s, q, w);
    RecordIsEncodable(q, Finding(cfg, s, q, w).value);
  }

  ghost function DetailOf(result: ExecutionResult): Detail {
    if result.allowed && result.output.Some? then Output(result.output.value) else Denied(result.reason)
  }

  ghost function PayloadOf(entry: Entry): Bytes {
    EncodeAll(RecordText(entry.request, DetailOf(entry.result)))
  }

  /** Decision and evidence of one returned call refer to the call and to each other. */
  ghost predicate Accounted(hash: Hash, entry: Entry) {
    var q, r := entry.request, entry.result;
    && r.decision.id == q.decisionId && r.decision.runId == q.runId
    && r.evidence.subject.decisionRef == r.decision.id
    && r.evidence.subject.id == q.evidenceId && r.evidence.subject.runId == q.runId
    && r.evidence.subject.actor == r.decision.actor
    && r.evidence.subject.createdAt == r.decision.createdAt == q.createdAt
    && r.evidence.subject.action == Ascii("tool.") + q.tool
    && r.evidence.digest == hash(PayloadOf(entry)) && r.evidence.ref == Handle(r.evidence.digest)
    && (r.allowed <==> r.output.Some?)
    && Encodable(RecordText(q, DetailOf(r)))
  }

  /** A returning call is allowed exactly when it succeeds, and adds one payload and one accounted entry. */
  lemma ReturnMeans(cfg: Config, s: State, q: Request, w: World)
    requires Exec(cfg, s, q, w).1.Returned?
    ensures
      var (s', outcome) := Exec(cfg, s, q, w);
      var entry := Entry(q, outcome.result);
      && (outcome.result.allowed <==> Succeeds(cfg, s, q, w))
      && (outcome.result.allowed ==> outcome.result.output == w.produced)
      && q.runId in s.runs && outcome.result.decision.actor == s.runs[q.runId].actor
      && w.policy == Some(outcome.result.decision.policy)
      && (!w.policy.value.allow ==> [outcome.result.reason] <= w.policy.value.reasonCodes)
      && Accounted(cfg.hash, entry)
      && s'.audit == s.audit + [entry] && s'.puts == s.puts + [PayloadOf(entry)]
      && s'.blobs == s.blobs[cfg.hash(PayloadOf(entry)) := PayloadOf(entry)]
      && s'.runs == s.runs && s'.tools == s.tools
  {
    hide CheckAnswer, RecordText, Encodable, EncodeAll, Compress, Authorised;
    PassIffAuthorised(cfg, s, q, w);
    var finding := Finding(cfg, s, q, w).value;
    assert DetailOf(Exec(cfg, s, q, w).1.result) == finding;
  }

  /** Why a call that the policy allows is refused: the first fault, in the order of the gates. */
  lemma RefusedBecause(cfg: Config, s: State, q: Request, w: World)
    requires Exec(cfg, s, q, w).1.Returned? && !Exec(cfg, s, q, w).1.result.allowed
    requires w.policy.Some? && w.policy.value.allow
    ensures
      var reason := Exec(cfg, s, q, w).1.result.reason;
      match DecodeToken(cfg.mac, q.token)
      case Raised => false
      case Refused(MALFORMED_TOKEN) => reason == Ascii("MALFORMED_TOKEN")
      case Refused(SIGNATURE_INVALID) => reason == Ascii("SIGNATURE_INVALID")
      case Decoded(c) =>
        if c.runId !in s.runs then reason == Ascii("RUN_UNKNOWN")
        else if s.runs[c.runId].finished then reason == Ascii("RUN_FINISHED")
        else if c.expiresAt < w.now then reason == Ascii("CAPABILITY_EXPIRED")
        else if c.tool != q.tool then reason == Ascii("TOOL_NOT_ALLOWED")
        else if c.scope != q.scope then reason == Ascii("SCOPE_MISMATCH")
        else if q.tool !in s.tools then reason == Ascii("UNKNOWN_TOOL")
        else if s.tools[q.tool].scope != q.scope then reason == Ascii("SCOPE_MISMATCH")
        else if !cfg.conforms(s.tools[q.tool].argsSchema, JObj(q.args)) then reason == Ascii("INVALID_TOOL_ARGS")
        else if w.produced.None? then reason == Ascii("EXECUTION_FAILED")
        else reason == Ascii("INVALID_TOOL_RESULT")
  {
    hide DecodeToken, RecordText, Encodable, EncodeAll, Compress, Ascii;
  }

  /** An allowed call says so. */
  lemma AllowedSays(cfg: Config, s: State, q: Request, w: World)
    requires Exec(cfg, s, q, w).1.Returned? && Exec(cfg, s, q, w).1.result.allowed
    ensures Exec(cfg, s, q, w).1.result.reason == Ascii("EXECUTED")
  {
    hide Gates, RecordText, Encodable, EncodeAll, Compress, Ascii;
  }

  lemma RaiseChangesNothing(cfg: Config, s: State, q: Request, w: World)
    requires Exec(cfg, s, q, w).1.ExecutionRaised?
    ensures Exec(cfg, s, q, w).0 == s.(calls := Exec(cfg, s, q, w).0.calls)
  {
  }

  // ----------------------------------------------------------------------------------------- histories

  /** Calls, changes to the runs and additions to the allowlist, in any order. */
  datatype Event = Execute(request: Request, world: World) | Change(action: Action) | Allow(spec: ToolSpec)

  function Step(cfg: Config, s: State, e: Event): (r: State) {
    match e
    case Execute(q, w) => Exec(cfg, s, q, w).0
    case Change(action) => s.(runs := Apply(s.runs, action))
    case Allow(spec) => s.(tools := Registered(s.tools, spec))
  }

  function History(cfg: Config, s: State, events: seq<Event>): (r: State) {
    Runs.Run((s, e) => Step(cfg, s, e), s, events)
  }

  /** One payload per returned call, in order, each still filed under its digest. */
  ghost predicate Trail(cfg: Config, s: State) {
    && Backed(cfg.hash, s.blobs, s.puts)
    && |s.puts| == |s.audit|
    && (forall i :: 0 <= i < |s.audit| ==> Accounted(cfg.hash, s.audit[i]) && s.puts[i] == PayloadOf(s.audit[i]))
  }

  lemma StepKeepsTrail(cfg: Config, s: State, e: Event)
    requires Trail(cfg, s)
    ensures Trail(cfg, Step(cfg, s, e))
    ensures s.audit <= Step(cfg, s, e).audit && s.calls <= Step(cfg, s, e).calls
  {
    hide Exec, Accounted, PayloadOf, Backed, Authorised;
    match e
    case Execute(q, w) =>
      HandlerRunsExactlyWhenAuthorised(cfg, s, q, w);
      if Exec(cfg, s, q, w).1.Returned? {
        ReturnMeans(cfg, s, q, w);
        PutKeepsBacked(cfg.hash, s.blobs, s.puts, PayloadOf(Entry(q, Exec(cfg, s, q, w).1.result)));
      } else {
        RaiseChangesNothing(cfg, s, q, w);
      }
    case Change(_) =>
    case Allow(_) =>
  }

  lemma {:induction false} HistoryKeepsTrail(cfg: Config, s: State, events: seq<Event>)
    requires Trail(cfg, s)
    ensures Trail(cfg, History(cfg, s, events))
    ensures s.audit <= History(cfg, s, events).audit && s.calls <= History(cfg, s, events).calls
    decreases |events|
  {
    hide Trail, Step;
    if events != [] {
      StepKeepsTrail(cfg, s, events[0]);
      HistoryKeepsTrail(cfg, Step(cfg, s, events[0]), events[1..]);
    }
  }

  /** The handler call an event may make: one, if it is an authorised call in the state it meets. */
  ghost function CallOf(cfg: Config, s: State, e: Event): seq<HandlerCall> {
    if e.Execute? && Authorised(cfg, s, e.request, e.world) then [HandlerCall(e.request.tool, e.request.args)] else []
  }

  /** The record an event may leave: one, if it is a call that returns. */
  ghost function EntryOf(cfg: Config, s: State, e: Event): seq<Entry> {
    if e.Execute? && Exec(cfg, s, e.request, e.world).1.Returned? then
      [Entry(e.request, Exec(cfg, s, e.request, e.world).1.result)]
    else []
  }

  ghost function AuthorisedCalls(cfg: Config, s: State, events: seq<Event>): seq<HandlerCall>
    decreases |events|
  {
    if events == [] then []
    else CallOf(cfg, s, events[0]) + AuthorisedCalls(cfg, Step(cfg, s, events[0]), events[1..])
  }

  ghost function ReturnedCalls(cfg: Config, s: State, events: seq<Event>): seq<Entry>
    decreases |events|
  {
    if events == [] then []
    else EntryOf(cfg, s, events[0]) + ReturnedCalls(cfg, Step(cfg, s, events[0]), events[1..])
  }

  lemma StepLogs(cfg: Config, s: State, e: Event)
    ensures Step(cfg, s, e).calls == s.calls + CallOf(cfg, s, e)
    ensures Step(cfg, s, e).audit == s.audit + EntryOf(cfg, s, e)
  {
    hide Exec, Authorised, Accounted, PayloadOf;
    if e.Execute? {
      HandlerRunsExactlyWhenAuthorised(cfg, s, e.request, e.world);
      if Exec(cfg, s, e.request, e.world).1.Returned? {
        ReturnMeans(cfg, s, e.request, e.world);
      } else {
        RaiseChangesNothing(cfg, s, e.request, e.world);
      }
    }
  }

  /**
   Over any history the handlers ran for exactly the authorised calls, in order, and exactly the
   calls that returned are on record, in order.
   */
  lemma {:induction false} HistoryLogs(cfg: Config, s: State, events: seq<Event>)
    ensures History(cfg, s, events).calls == s.calls + AuthorisedCalls(cfg, s, events)
    ensures History(cfg, s, events).audit == s.audit + ReturnedCalls(cfg, s, events)
    decreases |events|
  {
    hide Step, CallOf, EntryOf;
    if events != [] {
      var t := Step(cfg, s, events[0]);
      StepLogs(cfg, s, events[0]);
      HistoryLogs(cfg, t, events[1..]);
      var calls, entries := AuthorisedCalls(cfg, t, events[1..]), ReturnedCalls(cfg, t, events[1..]);
      hide AuthorisedCalls, ReturnedCalls;
      assert s.calls + CallOf(cfg, s, events[0]) + calls == s.calls + (CallOf(cfg, s, events[0]) + calls);
      assert s.audit + EntryOf(cfg, s, events[0]) + entries == s.audit + (EntryOf(cfg, s, events[0]) + entries);
    }
  }

  ghost predicate Opened(s: State) {
    s.puts == [] && s.audit == [] && s.calls == []
  }

  /** After any history, every evidence record resolves to the exact bytes of its call's payload. */
  lemma EvidenceIsRecoverable(cfg: Config, s: State, events: seq<Event>, i: nat)
    requires Opened(s)
    requires i < |History(cfg, s, events).audit|
    requires CollisionFree(cfg.hash, InPlay(History(cfg, s, events).puts))
    ensures
      var s' := History(cfg, s, events);
      && Accounted(cfg.hash, s'.audit[i])
      && ResolveIn(s'.blobs, s'.audit[i].result.evidence.ref) == Found(PayloadOf(s'.audit[i]))
  {
    hide Step, PayloadOf, Backed, Runs.Run;
    assert Trail(cfg, s) by {
      NothingPutYet(cfg.hash, s.blobs);
    }
    HistoryKeepsTrail(cfg, s, events);
    var s' := History(cfg, s, events);
    PutsAreRecoverable(cfg.hash, s'.blobs, s'.puts, s'.puts[i]);
  }

  lemma NothingPutYet(hash: Hash, blobs: Blobs)
    ensures Backed(hash, blobs, [])
  {
  }

  /** The recovered payload reads back as the tool, arguments and detail of the call. */
  lemma PayloadReadsBack(entry: Entry)
    requires Encodable(RecordText(entry.request, DetailOf(entry.result)))
    requires WellFormed(RecordJson(entry.request, DetailOf(entry.result)))
    ensures
      var j := RecordJson(entry.request, DetailOf(entry.result));
      LoadsBytes(PayloadOf(entry)) == Some(SortKeys(j)) && Meaning(SortKeys(j)) == Meaning(j)
  {
    hide Print, SortKeys, Loads, EncodeAll, Decode, WellFormed, RecordJson;
    DecodeEncoded(RecordText(entry.request, DetailOf(entry.result)));
    SortedRoundTrip(SPACED, RecordJson(entry.request, DetailOf(entry.result)));
  }

  /** A registered tool keeps its specification for ever. */
  lemma {:induction false} ToolsAreForever(cfg: Config, s: State, events: seq<Event>, name: Str)
    requires name in s.tools
    ensures name in History(cfg, s, events).tools && History(cfg, s, events).tools[name] == s.tools[name]
    decreases |events|
  {
    hide Exec;
    if events != [] {
      match events[0] {
        case Execute(q, w) =>
          if Exec(cfg, s, q, w).1.Returned? {
            ReturnMeans(cfg, s, q, w);
          } else {
            RaiseChangesNothing(cfg, s, q, w);
          }
        case Change(_) =>
        case Allow(_) =>
      }
      ToolsAreForever(cfg, Step(cfg, s, events[0]), events[1..], name);
    }
  }
}
