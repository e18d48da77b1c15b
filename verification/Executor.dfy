/** The runner-executor: gated tool calls, each leaving a decision and an evidence record. */
module Executor {
  import opened Options
  import opened Json
  import opened Utf8
  import opened CanonicalJson
  import opened Hashing
  import opened Capability
  import opened Registry
  import opened Tools
  import opened Evidence

  datatype PolicyResult = PolicyResult(allow: bool, reasonCodes: seq<Str>)

  datatype Request = Request(
    runId: Str, token: Str, tool: Str, args: seq<Field>, scope: Str, createdAt: Str, decisionId: Str, evidenceId: Str)

  /**
   * What the world answers during one call: the policy (None where it raises), the clock, and what
   * the tool's handler produces if it is called (None where it raises).
   */
  datatype World = World(policy: Option<PolicyResult>, now: int, produced: Option<seq<Field>>)

  /** The signing secret, the hash and the schema validator. */
  datatype Config = Config(mac: Mac, hash: Hash, conforms: (Json, Json) -> bool)

  datatype PolicyDecision = PolicyDecision(id: Str, createdAt: Str, actor: Json, runId: Str, policy: PolicyResult)

  datatype ExecutionResult = ExecutionResult(
    allowed: bool, reason: Str, decision: PolicyDecision, evidence: EvidenceRecord, output: Option<seq<Field>>)

  datatype Outcome = Returned(result: ExecutionResult) | ExecutionRaised

  datatype Detail = Denied(reason: Str) | Output(fields: seq<Field>)

  datatype HandlerCall = HandlerCall(tool: Str, args: seq<Field>)

  datatype Entry = Entry(request: Request, result: ExecutionResult)

  /** `calls` and `audit` are the histories of handler calls and of returned executions. */
  datatype State = State(
    runs: Table, tools: Allowlist, blobs: Blobs, puts: seq<Bytes>, calls: seq<HandlerCall>, audit: seq<Entry>)

  const SPACED := Style(false, true)

  function DetailJson(detail: Detail): (r: Json) {
    match detail
    case Denied(reason) => JObj([(Ascii("denied"), JStr(reason))])
    case Output(fields) => JObj([(Ascii("output"), JObj(fields))])
  }

  function RecordJson(request: Request, detail: Detail): (r: Json) {
    JObj([(Ascii("tool"), JStr(request.tool)), (Ascii("args"), JObj(request.args)),
          (Ascii("detail"), DetailJson(detail))])
  }

  function RecordText(request: Request, detail: Detail): (r: Str) {
    Print(SPACED, SortKeys(RecordJson(request, detail)))
  }

  function ReasonText(reason: Reason): (r: Str) {
    match reason
    case CAPABILITY_VALID => Ascii("CAPABILITY_VALID")
    case RUN_UNKNOWN => Ascii("RUN_UNKNOWN")
    case RUN_FINISHED => Ascii("RUN_FINISHED")
    case CAPABILITY_EXPIRED => Ascii("CAPABILITY_EXPIRED")
    case TOOL_NOT_ALLOWED => Ascii("TOOL_NOT_ALLOWED")
    case SCOPE_MISMATCH => Ascii("SCOPE_MISMATCH")
    case BadToken(MALFORMED_TOKEN) => Ascii("MALFORMED_TOKEN")
    case BadToken(SIGNATURE_INVALID) => Ascii("SIGNATURE_INVALID")
  }

  // ----------------------------------------------------------------------------------------- gates

  datatype Gate = Pass | Stop(reason: Str) | Blow

  /** The gates in order: known run, policy, capability, allowlist, scope, arguments. */
  function Gates(cfg: Config, s: State, q: Request, w: World): (r: Gate)
    ensures !r.Blow? ==> q.runId in s.runs && w.policy.Some?
    ensures r.Pass? ==> q.tool in s.tools
  {
    if q.runId !in s.runs || w.policy.None? then Blow
    else if !w.policy.value.allow then
      if w.policy.value.reasonCodes == [] then Blow else Stop(w.policy.value.reasonCodes[0])
    else
      var check := CheckAnswer(cfg.mac, s.runs, q.token, q.tool, q.scope, w.now);
      if check.CheckRaised? then Blow
      else if !check.valid then Stop(ReasonText(check.reason))
      else if q.tool !in s.tools then Stop(Ascii("UNKNOWN_TOOL"))
      else if s.tools[q.tool].scope != q.scope then Stop(Ascii("SCOPE_MISMATCH"))
      else if !cfg.conforms(s.tools[q.tool].argsSchema, JObj(q.args)) then Stop(Ascii("INVALID_TOOL_ARGS"))
      else Pass
  }

  /** What the evidence record will say; None where the call raises before anything is recorded. */
  function Finding(cfg: Config, s: State, q: Request, w: World): (r: Option<Detail>)
    ensures r.Some? ==> q.runId in s.runs && w.policy.Some?
  {
    match Gates(cfg, s, q, w)
    case Blow => None
    case Stop(reason) => Some(Denied(reason))
    case Pass =>
      if w.produced.None? then Some(Denied(Ascii("EXECUTION_FAILED")))
      else if cfg.conforms(s.tools[q.tool].resultSchema, JObj(w.produced.value)) then
        Some(Output(w.produced.value))
      else Some(Denied(Ascii("INVALID_TOOL_RESULT")))
  }

  function SubjectOf(q: Request, actor: Json): (r: Subject) {
    Subject(q.evidenceId, q.createdAt, actor, q.runId, Ascii("tool.") + q.tool, q.decisionId)
  }

  function ResultOf(hash: Hash, actor: Json, policy: PolicyResult, q: Request, detail: Detail): (r: ExecutionResult) {
    var decision := PolicyDecision(q.decisionId, q.createdAt, actor, q.runId, policy);
    var evidence := RecordOf(hash, EncodeAll(RecordText(q, detail)), SubjectOf(q, actor), UNTRUSTED);
    match detail
    case Denied(reason) => ExecutionResult(false, reason, decision, evidence, None)
    case Output(fields) => ExecutionResult(true, Ascii("EXECUTED"), decision, evidence, Some(fields))
  }

  /** One call of execute. */
  function Exec(cfg: Config, s: State, q: Request, w: World): (r: (State, Outcome)) {
    var finding := Finding(cfg, s, q, w);
    var calls := if Gates(cfg, s, q, w).Pass? then s.calls + [HandlerCall(q.tool, q.args)] else s.calls;
    if finding.None? || !Encodable(RecordText(q, finding.value)) then
      (s.(calls := calls), ExecutionRaised)
    else
      var result := ResultOf(cfg.hash, s.runs[q.runId].actor, w.policy.value, q, finding.value);
      var raw := EncodeAll(RecordText(q, finding.value));
      (s.(calls := calls, blobs := s.blobs[cfg.hash(raw) := raw], puts := s.puts + [raw],
          audit := s.audit + [Entry(q, result)]),
       Returned(result))
  }

  class RunnerExecutor {
    const capabilities: RunRegistry
    const tools: ToolRegistry
    const store: EvidenceStore
    const conforms: (Json, Json) -> bool
    var calls: seq<HandlerCall>
    ghost var audit: seq<Entry>

    constructor (capabilities: RunRegistry, tools: ToolRegistry, store: EvidenceStore, conforms: (Json, Json) -> bool)
      ensures this.capabilities == capabilities && this.tools == tools && this.store == store
      ensures this.conforms == conforms && calls == [] && audit == []
    {
      this.capabilities := capabilities;
      this.tools := tools;
      this.store := store;
      this.conforms := conforms;
      calls := [];
      audit := [];
    }

    ghost function View(): State
      reads this, capabilities, tools, store
    {
      State(capabilities.runs, tools.tools, store.blobs, store.puts, calls, audit)
    }

    ghost function Settings(): Config {
      Config(capabilities.mac, store.hash, conforms)
    }

    method Execute(q: Request, w: World) returns (outcome: Outcome)
      requires store.Valid()
      modifies this, store
      ensures store.Valid()
      ensures View() == Exec(Settings(), old(View()), q, w).0
      ensures outcome == Exec(Settings(), old(View()), q, w).1
    {
      hide CheckAnswer, RecordText, Encode, Encodable, EncodeAll;
      if q.runId !in capabilities.runs {
        return ExecutionRaised;
      }
      var actor := capabilities.runs[q.runId].actor;
      if w.policy.None? {
        return ExecutionRaised;
      }
      var policy := w.policy.value;
      if !policy.allow {
        if policy.reasonCodes == [] {
          return ExecutionRaised;
        }
        outcome := Record(q, actor, policy, Denied(policy.reasonCodes[0]));
        return;
      }
      var check := capabilities.Check(q.token, q.tool, q.scope, w.now);
      if check.CheckRaised? {
        return ExecutionRaised;
      }
      if !check.valid {
        outcome := Record(q, actor, policy, Denied(ReasonText(check.reason)));
        return;
      }
      var spec := tools.Lookup(q.tool);
      if spec.None? {
        outcome := Record(q, actor, policy, Denied(Ascii("UNKNOWN_TOOL")));
        return;
      }
      if spec.value.scope != q.scope {
        outcome := Record(q, actor, policy, Denied(Ascii("SCOPE_MISMATCH")));
        return;
      }
      if !conforms(spec.value.argsSchema, JObj(q.args)) {
        outcome := Record(q, actor, policy, Denied(Ascii("INVALID_TOOL_ARGS")));
        return;
      }
      calls := calls + [HandlerCall(q.tool, q.args)];
      if w.produced.None? {
        outcome := Record(q, actor, policy, Denied(Ascii("EXECUTION_FAILED")));
        return;
      }
      if !conforms(spec.value.resultSchema, JObj(w.produced.value)) {
        outcome := Record(q, actor, policy, Denied(Ascii("INVALID_TOOL_RESULT")));
        return;
      }
      outcome := Record(q, actor, policy, Output(w.produced.value));
    }

    /** Stores the payload of the call and assembles the result; raises when the payload cannot be encoded. */
    method Record(q: Request, actor: Json, policy: PolicyResult, detail: Detail) returns (outcome: Outcome)
      requires store.Valid()
      modifies this`audit, store
      ensures store.Valid()
      ensures Encodable(RecordText(q, detail)) ==>
        var raw := EncodeAll(RecordText(q, detail));
        && outcome == Returned(ResultOf(store.hash, actor, policy, q, detail))
        && store.puts == old(store.puts) + [raw] && store.blobs == old(store.blobs)[store.hash(raw) := raw]
        && audit == old(audit) + [Entry(q, outcome.result)]
      ensures !Encodable(RecordText(q, detail)) ==>
        && outcome == ExecutionRaised && audit == old(audit)
        && store.puts == old(store.puts) && store.blobs == old(store.blobs)
    {
      hide RecordText, EncodeAll;
      var decision := PolicyDecision(q.decisionId, q.createdAt, actor, q.runId, policy);
      var subject := SubjectOf(q, actor).(decisionRef := decision.id);
      var evidence := ProcessToolOutput(store, RecordText(q, detail), subject, UNTRUSTED);
      if evidence.None? {
        return ExecutionRaised;
      }
      var result :=
        match detail
        case Denied(reason) => ExecutionResult(false, reason, decision, evidence.value, None)
        case Output(fields) => ExecutionResult(true, Ascii("EXECUTED"), decision, evidence.value, Some(fields));
      audit := audit + [Entry(q, result)];
      outcome := Returned(result);
    }
  }
}
