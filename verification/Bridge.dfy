/** The stdio bridge: it adds a capability to a tool call before the server hands it to the executor. */
module Bridge {
  import opened Options
  import opened Json
  import opened JsonRoundTrip
  import opened Utf8
  import opened CanonicalJson
  import opened JsonText
  import opened JsonLoads
  import opened Base64Url
  import opened Capability
  import opened Registry
  import opened Tools
  import opened Executor

  const DEFAULT_TTL_SECONDS := 300

  const DEFAULT_STYLE := Style(true, true)

  datatype Injection = Line(text: Str) | InjectionRaised

  /** dict.setdefault. */
  function SetDefault(fields: seq<Field>, key: Str, value: Json): (r: seq<Field>) {
    if Get(fields, key).Some? then fields else fields + [(key, value)]
  }

  predicate NonEmptyText(j: Option<Json>) {
    j.Some? && j.value.JStr? && j.value.s != []
  }

  predicate HasCapability(params: seq<Field>) {
    && NonEmptyText(Get(params, Ascii("run_id")))
    && NonEmptyText(Get(params, Ascii("token")))
    && NonEmptyText(Get(params, Ascii("scope")))
  }

  /** The message and parameters of a tools/call request that names a registered tool without full credentials. */
  function NeedsCapability(tools: Allowlist, line: Str): (r: Option<(seq<Field>, seq<Field>, Str)>)
    ensures r.Some? ==> r.value.2 in tools
  {
    match Loads(line)
    case Some(JObj(message)) =>
      (match (Get(message, Ascii("method")), Get(message, Ascii("params")))
       case (Some(JStr(called)), Some(JObj(params))) =>
         if called != Ascii("tools/call") || HasCapability(params) then None
         else
           (match Get(params, Ascii("name"))
            case Some(JStr(name)) => if name in tools then Some((message, params, name)) else None
            case _ => None)
       case _ => None)
    case _ => None
  }

  function WithCapability(params: seq<Field>, runId: Str, scope: Str, token: Str): (r: seq<Field>) {
    SetDefault(SetDefault(SetDefault(params, Ascii("run_id"), JStr(runId)), Ascii("scope"), JStr(scope)),
               Ascii("token"), JStr(token))
  }

  /** inject_capability; the token is minted even when the caller brought one of its own. */
  method InjectCapability(registry: RunRegistry, tools: ToolRegistry, runId: Str, now: int, line: Str)
    returns (r: Injection)
    ensures r == Injected(registry.mac, registry.runs, tools.tools, runId, now, line)
  {
    hide Loads, IssueToken, Print, NeedsCapability;
    var call := NeedsCapability(tools.tools, line);
    if call.None? {
      return Line(line);
    }
    var (message, params, name) := call.value;
    var spec := tools.Lookup(name);
    params := SetDefault(params, Ascii("run_id"), JStr(runId));
    params := SetDefault(params, Ascii("scope"), JStr(spec.value.scope));
    var token := registry.DoIssue(runId, name, spec.value.scope, DEFAULT_TTL_SECONDS, now);
    if token.None? {
      return InjectionRaised;
    }
    params := SetDefault(params, Ascii("token"), JStr(token.value));
    message := Put(message, Ascii("params"), JObj(params));
    r := Line(Print(DEFAULT_STYLE, JObj(message)));
  }

  function Injected(mac: Mac, runs: Table, tools: Allowlist, runId: Str, now: int, line: Str): (r: Injection) {
    match NeedsCapability(tools, line)
    case None => Line(line)
    case Some((message, params, name)) =>
      if !Live(runs, runId) then InjectionRaised
      else
        var scope := tools[name].scope;
        var token := IssueToken(mac, Claims(runId, name, scope, now + DEFAULT_TTL_SECONDS));
        var params' := WithCapability(params, runId, scope, token);
        Line(Print(DEFAULT_STYLE, JObj(Put(message, Ascii("params"), JObj(params')))))
  }

  // ---------------------------------------------------------------------------------------- server

  datatype Reply =
    | PARSE_ERROR
    | INVALID_REQUEST
    | INVALID_PARAMS
    | METHOD_NOT_FOUND
    | Answered
    | CallTool(request: Request)

  /** The methods the server answers without a tool call. */
  function OwnMethods(): (r: set<Str>) {
    {Ascii("initialize"), Ascii("notifications/initialized"), Ascii("ping"), Ascii("tools/list")}
  }

  function CallParams(params: seq<Field>, createdAt: Str, decisionId: Str, evidenceId: Str): (r: Reply) {
    var name := Get(params, Ascii("name"));
    var arguments := Get(params, Ascii("arguments"));
    if !NonEmptyText(name) then INVALID_PARAMS
    else if arguments.Some? && !arguments.value.JObj? then INVALID_PARAMS
    else if !HasCapability(params) then INVALID_PARAMS
    else
      var args := if arguments.Some? then arguments.value.fields else [];
      CallTool(Request(Get(params, Ascii("run_id")).value.s, Get(params, Ascii("token")).value.s, name.value.s, args,
                       Get(params, Ascii("scope")).value.s, createdAt, decisionId, evidenceId))
  }

  /** How the server takes one line: the executor call it makes, or the kind of its own answer. */
  function Dispatch(line: Str, createdAt: Str, decisionId: Str, evidenceId: Str): (r: Reply) {
    match Loads(line)
    case Some(JObj(message)) =>
      if Get(message, Ascii("jsonrpc")) != Some(JStr(Ascii("2.0"))) then INVALID_REQUEST
      else
        (match Get(message, Ascii("method"))
         case Some(JStr(called)) =>
           if called in OwnMethods() then Answered
           else if called == Ascii("tools/call") then
             (match Get(message, Ascii("params"))
              case Some(JObj(params)) => CallParams(params, createdAt, decisionId, evidenceId)
              case _ => CallParams([], createdAt, decisionId, evidenceId))
           else METHOD_NOT_FOUND
         case _ => INVALID_REQUEST)
    case _ => PARSE_ERROR
  }

  // ------------------------------------------------------------------------------------------ fields

  lemma {:induction false} GetAppended(fields: seq<Field>, key: Str, value: Json, k: Str)
    ensures Get(fields + [(key, value)], k) ==
            if Get(fields, k).Some? then Get(fields, k) else if k == key then Some(value) else None
  {
    if fields != [] {
      GetAppended(fields[1..], key, value, k);
      assert (fields + [(key, value)])[1..] == fields[1..] + [(key, value)];
    }
  }

  lemma GetDefaulted(fields: seq<Field>, key: Str, value: Json, k: Str)
    ensures Get(SetDefault(fields, key, value), k) ==
            if Get(fields, k).Some? || k != key then Get(fields, k) else Some(value)
  {
    hide Get;
    GetAppended(fields, key, value, k);
  }

  lemma {:induction false} GetSome(fields: seq<Field>, key: Str)
    ensures Get(fields, key).Some? <==> exists i :: 0 <= i < |fields| && fields[i].0 == key
    ensures Get(fields, key).Some? ==> (key, Get(fields, key).value) in fields
  {
    if fields != [] {
      GetSome(fields[1..], key);
      assert forall i :: 1 <= i < |fields| ==> fields[i] == fields[1..][i - 1];
      if Get(fields[1..], key).Some? {
        var i :| 0 <= i < |fields[1..]| && fields[1..][i].0 == key;
        assert fields[i + 1].0 == key;
      }
    }
  }

  lemma GetClean(fields: seq<Field>, key: Str)
    requires Clean(JObj(fields)) && Get(fields, key).Some?
    ensures Clean(Get(fields, key).value)
  {
  }

  lemma DefaultClean(fields: seq<Field>, key: Str, value: Json)
    requires CleanFields(fields) && CleanField((key, value))
    ensures CleanFields(SetDefault(fields, key, value))
  {
    hide Get, CleanField;
    GetSome(fields, key);
  }

  lemma AsciiIsClean(s: Str)
    requires IsAscii(s)
    ensures !HasSplitPair(s)
  {
  }

  lemma TokenIsAscii(mac: Mac, c: Claims)
    ensures IsAscii(IssueToken(mac, c)) && IssueToken(mac, c) != []
  {
    hide Encode64, EncodeAll, PayloadText;
    var encoded := Encode64(EncodeAll(PayloadText(c)));
    EncodedHasNoDot(EncodeAll(PayloadText(c)));
    EncodedHasNoDot(mac(SigningInput(encoded)));
    assert IsAscii(Version());
  }

  // --------------------------------------------------------------------------------------- theorems

  /** The bridge prints as json.dumps does by default: spaced, and in ASCII. */
  lemma BridgeText()
    ensures Print(DEFAULT_STYLE, TWO_KEYS) == Ascii("{\"a\": 1, \"b\": 2}")
    ensures PrintStr(DEFAULT_STYLE, [0xE9]) == [34] + Ascii("\\u00e9") + [34]
  {
    hide Print, EscapeOne;
    PrintTwo(DEFAULT_STYLE);
    EscapesBeyondAscii();
    assert [0xE9][1..] == [];
    assert Escape(true, [0xE9]) == EscapeOne(true, 0xE9) + Escape(true, [0xE9][1..]);
  }

  /** Explicit fields of the caller are never overridden, and nothing but the three fields is added. */
  lemma CallerFieldsKept(params: seq<Field>, runId: Str, scope: Str, token: Str, key: Str)
    ensures Get(WithCapability(params, runId, scope, token), key) ==
            if Get(params, key).Some? then Get(params, key)
            else if key == Ascii("run_id") then Some(JStr(runId))
            else if key == Ascii("scope") then Some(JStr(scope))
            else if key == Ascii("token") then Some(JStr(token))
            else None
  {
    hide Get, SetDefault, Ascii;
    var one := SetDefault(params, Ascii("run_id"), JStr(runId));
    GetDefaulted(params, Ascii("run_id"), JStr(runId), key);
    GetDefaulted(one, Ascii("scope"), JStr(scope), key);
    GetDefaulted(SetDefault(one, Ascii("scope"), JStr(scope)), Ascii("token"), JStr(token), key);
  }

  lemma WithCapabilityClean(params: seq<Field>, runId: Str, scope: Str, token: Str)
    requires CleanFields(params) && !HasSplitPair(runId) && !HasSplitPair(scope) && !HasSplitPair(token)
    ensures CleanFields(WithCapability(params, runId, scope, token))
  {
    hide SetDefault, CleanFields, HasSplitPair, Ascii;
    CapabilityKeysClean();
    var one := SetDefault(params, Ascii("run_id"), JStr(runId));
    DefaultClean(params, Ascii("run_id"), JStr(runId));
    DefaultClean(one, Ascii("scope"), JStr(scope));
    DefaultClean(SetDefault(one, Ascii("scope"), JStr(scope)), Ascii("token"), JStr(token));
  }

  lemma CapabilityKeysClean()
    ensures !HasSplitPair(Ascii("run_id")) && !HasSplitPair(Ascii("scope")) && !HasSplitPair(Ascii("token"))
    ensures !HasSplitPair(Ascii("params"))
  {
  }

  /** The injected line reads back as the caller's message with the capability added to its parameters. */
  lemma InjectedReadsBack(line: Str, message: seq<Field>, params: seq<Field>, runId: Str, scope: Str, token: Str)
    requires Scalar(line) && Loads(line) == Some(JObj(message)) && Get(message, Ascii("params")) == Some(JObj(params))
    requires !HasSplitPair(runId) && !HasSplitPair(scope) && IsAscii(token)
    ensures
      var message' := Put(message, Ascii("params"), JObj(WithCapability(params, runId, scope, token)));
      Loads(Print(DEFAULT_STYLE, JObj(message'))) == Some(JObj(message'))
  {
    hide Loads, Print, Put, Get, WithCapability, HasSplitPair, Scalar, IsAscii, Received, Printable;
    LoadedSurvives(DEFAULT_STYLE, line, JObj(message));
    GetClean(message, Ascii("params"));
    AsciiIsClean(token);
    CapabilityKeysClean();
    WithCapabilityClean(params, runId, scope, token);
    var params' := WithCapability(params, runId, scope, token);
    var message' := Put(message, Ascii("params"), JObj(params'));
    PutClean(message, Ascii("params"), JObj(params'));
    CleanSurvives(DEFAULT_STYLE, JObj(message'));
    LoadsPrinted(DEFAULT_STYLE, JObj(message'));
  }

  /** A line of Unicode text holding a tools/call request for a registered tool. */
  ghost predicate ToolCall(tools: Allowlist, line: Str, message: seq<Field>, params: seq<Field>, name: Str) {
    && Scalar(line) && Loads(line) == Some(JObj(message))
    && Get(message, Ascii("jsonrpc")) == Some(JStr(Ascii("2.0")))
    && Get(message, Ascii("method")) == Some(JStr(Ascii("tools/call")))
    && Get(message, Ascii("params")) == Some(JObj(params))
    && Get(params, Ascii("name")) == Some(JStr(name)) && name != [] && name in tools
    && (Get(params, Ascii("arguments")).Some? ==> Get(params, Ascii("arguments")).value.JObj?)
  }

  /** The bridge's run and the tool's scope can be carried as capability fields. */
  ghost predicate Carries(runId: Str, scope: Str) {
    runId != [] && scope != [] && !HasSplitPair(runId) && !HasSplitPair(scope)
  }

  /** Each capability field the caller brings is non-empty text. */
  ghost predicate BringsText(params: seq<Field>) {
    && (Get(params, Ascii("run_id")).None? || NonEmptyText(Get(params, Ascii("run_id"))))
    && (Get(params, Ascii("token")).None? || NonEmptyText(Get(params, Ascii("token"))))
    && (Get(params, Ascii("scope")).None? || NonEmptyText(Get(params, Ascii("scope"))))
  }

  /** The caller's text for a field, or the bridge's when the caller brings none. */
  ghost function FieldOr(params: seq<Field>, key: Str, own: Str): Str {
    match Get(params, key) case Some(JStr(s)) => s case _ => own
  }

  ghost function MintedToken(mac: Mac, tools: Allowlist, runId: Str, now: int, name: Str): Str
    requires name in tools
  {
    IssueToken(mac, Claims(runId, name, tools[name].scope, now + DEFAULT_TTL_SECONDS))
  }

  /** The executor call the server makes for a call that went through the bridge. */
  ghost function BridgedRequest(
    mac: Mac, tools: Allowlist, runId: Str, now: int, params: seq<Field>, name: Str,
    createdAt: Str, decisionId: Str, evidenceId: Str): Request
    requires name in tools
  {
    var args := match Get(params, Ascii("arguments")) case Some(JObj(fields)) => fields case _ => [];
    Request(FieldOr(params, Ascii("run_id"), runId),
            FieldOr(params, Ascii("token"), MintedToken(mac, tools, runId, now, name)), name, args,
            FieldOr(params, Ascii("scope"), tools[name].scope), createdAt, decisionId, evidenceId)
  }

  lemma MessageKeysApart()
    ensures Ascii("method") != Ascii("params") && Ascii("jsonrpc") != Ascii("params")
    ensures Ascii("name") !in {Ascii("run_id"), Ascii("scope"), Ascii("token")}
    ensures Ascii("arguments") !in {Ascii("run_id"), Ascii("scope"), Ascii("token")}
    ensures Ascii("run_id") != Ascii("scope") && Ascii("run_id") != Ascii("token") && Ascii("scope") != Ascii("token")
    ensures Ascii("tools/call") !in OwnMethods()
  {
    assert Ascii("method")[0] == 109 && Ascii("params")[0] == 112 && Ascii("jsonrpc")[0] == 106;
    assert Ascii("name")[0] == 110 && Ascii("arguments")[0] == 97;
    assert Ascii("run_id")[0] == 114 && Ascii("scope")[0] == 115 && Ascii("token")[0] == 116;
    assert Ascii("tools/call")[0] == 116 && Ascii("tools/call")[6] == 99 && Ascii("tools/list")[6] == 108;
    assert Ascii("initialize")[0] == 105 && Ascii("notifications/initialized")[0] == 110 && Ascii("ping")[0] == 112;
  }

  lemma BridgedParams(
    mac: Mac, tools: Allowlist, line: Str, message: seq<Field>, runId: Str, now: int, params: seq<Field>, name: Str,
    createdAt: Str, decisionId: Str, evidenceId: Str)
    requires ToolCall(tools, line, message, params, name) && Carries(runId, tools[name].scope)
    ensures
      var q := BridgedRequest(mac, tools, runId, now, params, name, createdAt, decisionId, evidenceId);
      var minted := MintedToken(mac, tools, runId, now, name);
      CallParams(WithCapability(params, runId, tools[name].scope, minted), createdAt, decisionId, evidenceId) ==
      if BringsText(params) then CallTool(q) else INVALID_PARAMS
  {
    hide Get, WithCapability, Loads, HasSplitPair, Scalar, IssueToken, Ascii, MintedToken;
    var scope, minted := tools[name].scope, MintedToken(mac, tools, runId, now, name);
    MintedIsAscii(mac, tools, runId, now, name);
    MessageKeysApart();
    CallerFieldsKept(params, runId, scope, minted, Ascii("name"));
    CallerFieldsKept(params, runId, scope, minted, Ascii("arguments"));
    CallerFieldsKept(params, runId, scope, minted, Ascii("run_id"));
    CallerFieldsKept(params, runId, scope, minted, Ascii("scope"));
    CallerFieldsKept(params, runId, scope, minted, Ascii("token"));
  }

  lemma MintedIsAscii(mac: Mac, tools: Allowlist, runId: Str, now: int, name: Str)
    requires name in tools
    ensures IsAscii(MintedToken(mac, tools, runId, now, name)) && MintedToken(mac, tools, runId, now, name) != []
  {
    hide IssueToken;
    TokenIsAscii(mac, Claims(runId, name, tools[name].scope, now + DEFAULT_TTL_SECONDS));
  }

  lemma IncompleteCallNeeds(tools: Allowlist, line: Str, message: seq<Field>, params: seq<Field>, name: Str)
    requires ToolCall(tools, line, message, params, name)
    ensures NeedsCapability(tools, line) == if HasCapability(params) then None else Some((message, params, name))
  {
    hide Get, Loads, Scalar, Ascii, HasCapability;
  }

  /** A call that brings all three capability fields passes the bridge untouched. */
  lemma CompleteCallPasses(
    mac: Mac, runs: Table, tools: Allowlist, line: Str, message: seq<Field>, runId: Str, now: int,
    params: seq<Field>, name: Str)
    requires ToolCall(tools, line, message, params, name) && HasCapability(params)
    ensures Injected(mac, runs, tools, runId, now, line) == Line(line)
  {
    hide Get, Put, WithCapability, Loads, IssueToken, Print, NeedsCapability;
    IncompleteCallNeeds(tools, line, message, params, name);
  }

  /**
   Any other call reaches the executor as the caller meant it, each capability field being the caller's
   own or, where it brings none, the bridge's; a field that is not non-empty text makes the server refuse it.
   */
  lemma BridgedCallReachesExecutor(
    mac: Mac, runs: Table, tools: Allowlist, line: Str, message: seq<Field>, runId: Str, now: int,
    params: seq<Field>, name: Str, createdAt: Str, decisionId: Str, evidenceId: Str)
    requires ToolCall(tools, line, message, params, name) && !HasCapability(params)
    requires Carries(runId, tools[name].scope) && Live(runs, runId)
    ensures
      var injected := Injected(mac, runs, tools, runId, now, line);
      && injected.Line?
      && Dispatch(injected.text, createdAt, decisionId, evidenceId) ==
         if BringsText(params) then
           CallTool(BridgedRequest(mac, tools, runId, now, params, name, createdAt, decisionId, evidenceId))
         else INVALID_PARAMS
  {
    hide Get, Put, WithCapability, Loads, HasSplitPair, Scalar, IssueToken, IsAscii, Ascii, CallParams, HasCapability;
    hide NeedsCapability, OwnMethods, Print, BringsText;
    IncompleteCallNeeds(tools, line, message, params, name);
    var scope, minted := tools[name].scope, MintedToken(mac, tools, runId, now, name);
    MintedIsAscii(mac, tools, runId, now, name);
    InjectedReadsBack(line, message, params, runId, scope, minted);
    BridgedParams(mac, tools, line, message, runId, now, params, name, createdAt, decisionId, evidenceId);
    MessageKeysApart();
    var params' := JObj(WithCapability(params, runId, scope, minted));
    GetPut(message, Ascii("params"), params', Ascii("params"));
    GetPut(message, Ascii("params"), params', Ascii("method"));
    GetPut(message, Ascii("params"), params', Ascii("jsonrpc"));
  }

  /**
   While the bridge's run is live and 300 seconds have not passed, the minted token is honoured: a call
   without its own token is refused for its capability or scope only if it brings another scope, and can
   fail on its run only if it brings an unknown one. A call that brings no capability field at all is
   decided by the policy and its arguments alone.
   */
  lemma BridgedCallIsGranted(
    cfg: Config, s: State, later: State, line: Str, message: seq<Field>, runId: Str, now: int, params: seq<Field>,
    name: Str, createdAt: Str, decisionId: Str, evidenceId: Str, actions: seq<Action>, w: World)
    requires IsMac(cfg.mac)
    requires ToolCall(s.tools, line, message, params, name) && Get(params, Ascii("token")).None?
    requires Carries(runId, s.tools[name].scope) && Live(s.runs, runId)
    requires name in later.tools && later.tools[name] == s.tools[name]
    requires later.runs == After(s.runs, actions) && (NoFinish(actions, runId) || StartedForGood(actions, runId))
    requires w.now <= now + 300
    requires w.policy.Some? && w.policy.value.allow
    ensures
      var q := BridgedRequest(cfg.mac, s.tools, runId, now, params, name, createdAt, decisionId, evidenceId);
      && Gates(cfg, later, q, w) ==
         (if q.runId !in later.runs then Blow
          else if q.scope != s.tools[name].scope then Stop(Ascii("SCOPE_MISMATCH"))
          else if cfg.conforms(s.tools[name].argsSchema, JObj(q.args)) then Pass
          else Stop(Ascii("INVALID_TOOL_ARGS")))
      && (Get(params, Ascii("run_id")).None? ==> q.runId in later.runs)
      && (Get(params, Ascii("scope")).None? ==> q.scope == s.tools[name].scope)
  {
    hide Get, Loads, HasSplitPair, Scalar, IssueToken, CheckAnswer, Ascii, After, NoFinish, StartedForGood;
    var q := BridgedRequest(cfg.mac, s.tools, runId, now, params, name, createdAt, decisionId, evidenceId);
    var c := Claims(runId, name, s.tools[name].scope, now + DEFAULT_TTL_SECONDS);
    NameIsClean(s.tools, line, message, params, name);
    IssuedTokenValid(cfg.mac, s.runs, c, actions, name, q.scope, w.now);
    OtherScopeRefused(cfg.mac, later.runs, c, q.scope, w.now);
    LiveAfter(s.runs, actions, runId);
  }

  /** A live, unexpired token is refused for another scope with that reason. */
  lemma OtherScopeRefused(mac: Mac, runs: Table, c: Claims, scope: Str, now: int)
    requires IsMac(mac) && Scalars(c)
    ensures Live(runs, c.runId) && now <= c.expiresAt && scope != c.scope ==>
      CheckAnswer(mac, runs, IssueToken(mac, c), c.tool, scope, now) == Checked(false, SCOPE_MISMATCH, Some(c))
  {
    hide DecodeToken, IssueToken, HasSplitPair;
    TokenRoundTrip(mac, c);
  }

  lemma NameIsClean(tools: Allowlist, line: Str, message: seq<Field>, params: seq<Field>, name: Str)
    requires ToolCall(tools, line, message, params, name)
    ensures !HasSplitPair(name)
  {
    hide Get, Loads, HasSplitPair, Scalar, Ascii, Print;
    LoadedSurvives(DEFAULT_STYLE, line, JObj(message));
    GetClean(message, Ascii("params"));
    GetClean(params, Ascii("name"));
  }
}
