/** The registry of agent runs: which tokens are in force, over every history of starts and finishes. */
module Registry {
  import opened Options
  import opened Json
  import opened Capability
  import Runs

  datatype AgentRun = AgentRun(runId: Str, actor: Json, createdAt: int, finished: bool)

  type Table = map<Str, AgentRun>

  datatype Reason =
    | CAPABILITY_VALID
    | RUN_UNKNOWN
    | RUN_FINISHED
    | CAPABILITY_EXPIRED
    | TOOL_NOT_ALLOWED
    | SCOPE_MISMATCH
    | BadToken(why: Failure)

  datatype CapabilityCheck =
    | Checked(valid: bool, reason: Reason, claims: Option<Claims>)
    | CheckRaised

  datatype Action =
    | Start(runId: Str, actor: Json, at: int)
    | Finish(runId: Str)
    | Issue(runId: Str)

  /** Starting a run replaces whatever the registry held for that id; finishing an unknown run changes nothing. */
  function Apply(runs: Table, action: Action): (r: Table) {
    match action
    case Start(id, actor, at) => runs[id := AgentRun(id, actor, at, false)]
    case Finish(id) => if id in runs then runs[id := runs[id].(finished := true)] else runs
    case Issue(_) => runs
  }

  predicate Live(runs: Table, id: Str) {
    id in runs && !runs[id].finished
  }

  function Judge(runs: Table, c: Claims, tool: Str, scope: Str, now: int): (r: Reason) {
    if c.runId !in runs then RUN_UNKNOWN
    else if runs[c.runId].finished then RUN_FINISHED
    else if c.expiresAt < now then CAPABILITY_EXPIRED
    else if c.tool != tool then TOOL_NOT_ALLOWED
    else if c.scope != scope then SCOPE_MISMATCH
    else CAPABILITY_VALID
  }

  function CheckAnswer(mac: Mac, runs: Table, token: Str, tool: Str, scope: Str, now: int): (r: CapabilityCheck) {
    match DecodeToken(mac, token)
    case Raised => CheckRaised
    case Refused(why) => Checked(false, BadToken(why), None)
    case Decoded(c) =>
      var reason := Judge(runs, c, tool, scope, now);
      Checked(reason == CAPABILITY_VALID, reason, Some(c))
  }

  predicate IsValid(check: CapabilityCheck) {
    check.Checked? && check.valid
  }

  class RunRegistry {
    const mac: Mac
    var runs: Table

    constructor (mac: Mac)
      ensures this.mac == mac && runs == map[]
    {
      this.mac := mac;
      runs := map[];
    }

    /** An absent or empty id is replaced by a generated one. */
    method DoStart(actor: Json, runId: Option<Str>, generated: Str, now: int) returns (run: AgentRun)
      modifies this
      ensures run.runId == (if runId.Some? && runId.value != [] then runId.value else generated)
      ensures runs == Apply(old(runs), Start(run.runId, actor, now))
      ensures Live(runs, run.runId) && runs[run.runId] == run
      ensures forall id :: id != run.runId ==> (Live(runs, id) <==> Live(old(runs), id))
    {
      var id := if runId.Some? && runId.value != [] then runId.value else generated;
      run := AgentRun(id, actor, now, false);
      runs := runs[id := run];
    }

    /** RunRegistry.finish; false stands for its RunUnknownError. */
    method DoFinish(runId: Str) returns (known: bool)
      modifies this
      ensures known <==> runId in old(runs)
      ensures runs == Apply(old(runs), Finish(runId))
      ensures !Live(runs, runId)
      ensures forall id :: id != runId ==> (Live(runs, id) <==> Live(old(runs), id))
    {
      known := runId in runs;
      if known {
        runs := runs[runId := runs[runId].(finished := true)];
      }
    }

    /** RunRegistry.issue; None stands for its RunUnknownError. */
    method DoIssue(runId: Str, tool: Str, scope: Str, ttl: int, now: int) returns (token: Option<Str>)
      ensures token.Some? <==> Live(runs, runId)
      ensures token.Some? ==> token.value == IssueToken(mac, Claims(runId, tool, scope, now + ttl))
    {
      if runId !in runs || runs[runId].finished {
        return None;
      }
      token := Some(IssueToken(mac, Claims(runId, tool, scope, now + ttl)));
    }

    method Check(token: Str, tool: Str, scope: Str, now: int) returns (r: CapabilityCheck)
      ensures r == CheckAnswer(mac, runs, token, tool, scope, now)
    {
      var decoded := DecodeToken(mac, token);
      match decoded
      case Raised => return CheckRaised;
      case Refused(why) => return Checked(false, BadToken(why), None);
      case Decoded(c) =>
        if c.runId !in runs {
          return Checked(false, RUN_UNKNOWN, Some(c));
        }
        if runs[c.runId].finished {
          return Checked(false, RUN_FINISHED, Some(c));
        }
        if c.expiresAt < now {
          return Checked(false, CAPABILITY_EXPIRED, Some(c));
        }
        if c.tool != tool {
          return Checked(false, TOOL_NOT_ALLOWED, Some(c));
        }
        if c.scope != scope {
          return Checked(false, SCOPE_MISMATCH, Some(c));
        }
        return Checked(true, CAPABILITY_VALID, Some(c));
    }
  }

  // -------------------------------------------------------------------------------------- histories

  function After(runs: Table, actions: seq<Action>): (r: Table) {
    Runs.Run(Apply, runs, actions)
  }

  predicate Starts(action: Action, id: Str) {
    action.Start? && action.runId == id
  }

  predicate Finishes(action: Action, id: Str) {
    action.Finish? && action.runId == id
  }

  ghost predicate NoFinish(actions: seq<Action>, id: Str) {
    forall k :: 0 <= k < |actions| ==> !Finishes(actions[k], id)
  }

  ghost predicate NoStart(actions: seq<Action>, id: Str) {
    forall k :: 0 <= k < |actions| ==> !Starts(actions[k], id)
  }

  /** Some start of the run is not followed by a finish of it. */
  ghost predicate StartedForGood(actions: seq<Action>, id: Str) {
    exists i :: 0 <= i < |actions| && Starts(actions[i], id) && NoFinish(actions[i + 1..], id)
  }

  lemma StartedLater(actions: seq<Action>, id: Str)
    requires actions != []
    ensures StartedForGood(actions, id) <==>
            StartedForGood(actions[1..], id) || (Starts(actions[0], id) && NoFinish(actions[1..], id))
  {
  }

  lemma FinishLater(actions: seq<Action>, id: Str)
    requires actions != []
    ensures NoFinish(actions, id) <==> !Finishes(actions[0], id) && NoFinish(actions[1..], id)
  {
  }

  /** A run is live exactly when its last start, or its earlier life, was not finished since. */
  lemma {:induction false} LiveAfter(runs: Table, actions: seq<Action>, id: Str)
    ensures Live(After(runs, actions), id) <==>
            StartedForGood(actions, id) || (Live(runs, id) && NoFinish(actions, id))
    decreases |actions|
  {
    if actions != [] {
      hide StartedForGood, NoFinish;
      LiveAfter(Apply(runs, actions[0]), actions[1..], id);
      StartedLater(actions, id);
      FinishLater(actions, id);
    }
  }

  lemma {:induction false} FinishedStays(runs: Table, actions: seq<Action>, id: Str)
    requires id in runs && runs[id].finished && NoStart(actions, id)
    ensures id in After(runs, actions) && After(runs, actions)[id].finished
    decreases |actions|
  {
    if actions != [] {
      assert !Starts(actions[0], id);
      FinishedStays(Apply(runs, actions[0]), actions[1..], id);
    }
  }

  // --------------------------------------------------------------------------------------- theorems

  /** A token is accepted exactly when it is genuine, of a live run, unexpired, and for this tool and scope. */
  lemma ValidMeans(mac: Mac, runs: Table, token: Str, tool: Str, scope: Str, now: int)
    ensures IsValid(CheckAnswer(mac, runs, token, tool, scope, now)) <==>
            && DecodeToken(mac, token).Decoded?
            && var c := DecodeToken(mac, token).claims;
               Live(runs, c.runId) && now <= c.expiresAt && c.tool == tool && c.scope == scope
    ensures IsValid(CheckAnswer(mac, runs, token, tool, scope, now)) ==> token == Signed(mac, Split(token)[1])
  {
    hide DecodeToken, Split, Signed;
    if DecodeToken(mac, token).Decoded? {
      AcceptedIsSigned(mac, token);
    }
  }

  /** Which reason a check gives, from the claims in the token, the table and the clock. */
  lemma ReasonsExactly(mac: Mac, runs: Table, token: Str, c: Claims, tool: Str, scope: Str, now: int)
    requires DecodeToken(mac, token) == Decoded(c)
    ensures
      var check := CheckAnswer(mac, runs, token, tool, scope, now);
      && check.Checked? && check.claims == Some(c) && (check.valid <==> check.reason == CAPABILITY_VALID)
      && (check.reason == RUN_UNKNOWN <==> c.runId !in runs)
      && (check.reason == RUN_FINISHED <==> c.runId in runs && runs[c.runId].finished)
      && (check.reason == CAPABILITY_EXPIRED <==> Live(runs, c.runId) && c.expiresAt < now)
      && (check.reason == TOOL_NOT_ALLOWED <==> Live(runs, c.runId) && now <= c.expiresAt && c.tool != tool)
      && (check.reason == SCOPE_MISMATCH <==>
            Live(runs, c.runId) && now <= c.expiresAt && c.tool == tool && c.scope != scope)
      && (check.reason == CAPABILITY_VALID <==>
            Live(runs, c.runId) && now <= c.expiresAt && c.tool == tool && c.scope == scope)
  {
    hide DecodeToken;
  }

  /** A token that does not decode is refused with the reason the decoder gives. */
  lemma UndecodedReasons(mac: Mac, runs: Table, token: Str, tool: Str, scope: Str, now: int)
    requires DecodeToken(mac, token).Refused?
    ensures CheckAnswer(mac, runs, token, tool, scope, now) ==
            Checked(false, BadToken(DecodeToken(mac, token).why), None)
  {
  }

  /** An expired token stays expired, whatever happens to the runs. */
  lemma ExpiredForever(
    mac: Mac, runs: Table, token: Str, tool: Str, scope: Str, now: int,
    actions: seq<Action>, tool': Str, scope': Str, now': int)
    requires CheckAnswer(mac, runs, token, tool, scope, now).Checked?
    requires CheckAnswer(mac, runs, token, tool, scope, now).reason == CAPABILITY_EXPIRED
    requires now <= now'
    ensures !IsValid(CheckAnswer(mac, After(runs, actions), token, tool', scope', now'))
  {
    hide DecodeToken;
  }

  /** A token of a finished run stays refused for that reason until the run is started again. */
  lemma RevokedUntilRestart(
    mac: Mac, runs: Table, token: Str, tool: Str, scope: Str, now: int,
    actions: seq<Action>, tool': Str, scope': Str, now': int)
    requires CheckAnswer(mac, runs, token, tool, scope, now).Checked?
    requires CheckAnswer(mac, runs, token, tool, scope, now).reason == RUN_FINISHED
    requires NoStart(actions, CheckAnswer(mac, runs, token, tool, scope, now).claims.value.runId)
    ensures
      var later := CheckAnswer(mac, After(runs, actions), token, tool', scope', now');
      later.Checked? && later.reason == RUN_FINISHED && !later.valid
  {
    hide DecodeToken, After;
    FinishedStays(runs, actions, CheckAnswer(mac, runs, token, tool, scope, now).claims.value.runId);
  }

  ghost predicate Scalars(c: Claims) {
    !HasSplitPair(c.runId) && !HasSplitPair(c.tool) && !HasSplitPair(c.scope)
  }

  /** When a token issued for a live run is accepted, after any history and at any time. */
  lemma IssuedTokenValid(
    mac: Mac, runs: Table, c: Claims, actions: seq<Action>, tool: Str, scope: Str, now: int)
    requires IsMac(mac) && Scalars(c) && Live(runs, c.runId)
    ensures IsValid(CheckAnswer(mac, After(runs, actions), IssueToken(mac, c), tool, scope, now)) <==>
            && tool == c.tool && scope == c.scope && now <= c.expiresAt
            && (NoFinish(actions, c.runId) || StartedForGood(actions, c.runId))
  {
    hide DecodeToken, IssueToken, HasSplitPair, After, NoFinish, StartedForGood, Split, Signed;
    TokenRoundTrip(mac, c);
    ValidMeans(mac, After(runs, actions), IssueToken(mac, c), tool, scope, now);
    LiveAfter(runs, actions, c.runId);
  }

  /** Restarting a finished run brings its unexpired tokens back into force. */
  lemma RestartRevives(mac: Mac, runs: Table, c: Claims, actor: Json, at: int, now: int)
    requires IsMac(mac) && Scalars(c) && Live(runs, c.runId) && now <= c.expiresAt
    ensures
      var token := IssueToken(mac, c);
      var finished := [Finish(c.runId)];
      && CheckAnswer(mac, After(runs, finished), token, c.tool, c.scope, now) == Checked(false, RUN_FINISHED, Some(c))
      && IsValid(CheckAnswer(mac, After(runs, finished + [Start(c.runId, actor, at)]), token, c.tool, c.scope, now))
  {
    hide DecodeToken, IssueToken, HasSplitPair;
    TokenRoundTrip(mac, c);
    var finished := [Finish(c.runId)];
    Runs.Concat(Apply, runs, finished, [Start(c.runId, actor, at)]);
    assert After(runs, finished) == Apply(runs, finished[0]);
  }
}
