/** The artifact transition policy, and how it relates to the control plane's waiver rules. */
module TransitionGate {
  import opened Options
  import opened Waivers

  datatype Finding = Finding(riskId: Option<string>, severity: Option<string>)

  datatype Input = Input(
    artifactType: string, fromStatus: string, toStatus: string, actorType: string, now: Option<int>,
    findings: seq<Finding>, waivers: seq<Waiver>)

  datatype DenyReason =
    | UNKNOWN_ARTIFACT_TYPE
    | UNKNOWN_STATUS
    | ILLEGAL_TRANSITION
    | AGENT_MAY_NOT_APPROVE
    | BLOCKING_FINDING
    | UNRESOLVED_MEDIUM

  const APPROVAL_STATUSES := {"approved", "done"}
  const BLOCKING_SEVERITIES := {"critical", "high"}

  const DOCUMENT_STATUSES := {"draft", "in_review", "approved", "rejected", "superseded"}

  const STATUSES: map<string, set<string>> := map[
    "specification" := DOCUMENT_STATUSES,
    "threat-model" := DOCUMENT_STATUSES,
    "plan" := {"draft", "approved", "superseded"},
    "task" := {"todo", "in_progress", "implemented", "in_review", "done", "blocked"},
    "waiver" := {"active", "expired", "revoked"}]

  const DOCUMENT_MOVES: map<string, set<string>> := map[
    "draft" := {"in_review", "superseded"},
    "in_review" := {"approved", "rejected"},
    "approved" := {"superseded"},
    "rejected" := {"draft", "superseded"}]

  const LIFECYCLES: map<string, map<string, set<string>>> := map[
    "specification" := DOCUMENT_MOVES,
    "threat-model" := DOCUMENT_MOVES,
    "plan" := map["draft" := {"approved", "superseded"}, "approved" := {"superseded"}],
    "task" := map[
      "todo" := {"in_progress", "blocked"},
      "in_progress" := {"implemented", "blocked"},
      "implemented" := {"in_review", "blocked"},
      "in_review" := {"done", "implemented", "blocked"},
      "blocked" := {"todo", "in_progress"},
      "done" := {}],
    "waiver" := map["active" := {"expired", "revoked"}, "expired" := {}, "revoked" := {}]]

  // ------------------------------------------------------------------------------------------ rules

  /** time.parse_rfc3339_ns is undefined outside sixty-four bits of nanoseconds. */
  predicate InRange(instant: int) {
    -0x8000_0000_0000_0000 <= instant < 0x8000_0000_0000_0000
  }

  predicate Parses(instant: Option<int>) {
    instant.Some? && InRange(instant.value)
  }

  predicate UnexpiredNs(w: Waiver, now: Option<int>) {
    Parses(now) && Parses(w.expiresAt) && now.value < w.expiresAt.value
  }

  predicate Waives(w: Waiver, riskId: string, now: Option<int>) {
    && w.riskId == Some(riskId) && w.severity == Some("medium") && w.status == Some("active")
    && UnexpiredNs(w, now)
  }

  ghost predicate MediumIsWaived(waivers: seq<Waiver>, riskId: Option<string>, now: Option<int>) {
    riskId.Some? && exists w :: w in waivers && Waives(w, riskId.value, now)
  }

  ghost predicate HasBlockingFinding(findings: seq<Finding>) {
    exists f :: f in findings && f.severity.Some? && f.severity.value in BLOCKING_SEVERITIES
  }

  ghost predicate HasUnresolvedMedium(findings: seq<Finding>, waivers: seq<Waiver>, now: Option<int>) {
    exists f :: f in findings && f.severity == Some("medium") && !MediumIsWaived(waivers, f.riskId, now)
  }

  predicate KnownStatus(kind: string, status: string) {
    kind in STATUSES && status in STATUSES[kind]
  }

  predicate IllegalMove(kind: string, from: string, to: string) {
    kind in LIFECYCLES && from in LIFECYCLES[kind] && to !in LIFECYCLES[kind][from]
  }

  ghost function DenyReasons(input: Input): (r: set<DenyReason>) {
    (if input.artifactType !in LIFECYCLES then {UNKNOWN_ARTIFACT_TYPE} else {})
    + (if input.artifactType in LIFECYCLES &&
          !(KnownStatus(input.artifactType, input.fromStatus) && KnownStatus(input.artifactType, input.toStatus))
       then {UNKNOWN_STATUS} else {})
    + (if IllegalMove(input.artifactType, input.fromStatus, input.toStatus) then {ILLEGAL_TRANSITION} else {})
    + (if input.actorType == "agent" && input.toStatus in APPROVAL_STATUSES
       then {DenyReason.AGENT_MAY_NOT_APPROVE} else {})
    + (if HasBlockingFinding(input.findings) then {BLOCKING_FINDING} else {})
    + (if HasUnresolvedMedium(input.findings, input.waivers, input.now) then {UNRESOLVED_MEDIUM} else {})
  }

  ghost predicate Allowed(input: Input) {
    DenyReasons(input) == {}
  }

  // --------------------------------------------------------------------------------------- lifecycle

  /** A move the policy allows for a human when there are no findings. */
  ghost predicate Moves(kind: string, from: string, to: string) {
    Allowed(Input(kind, from, to, "human", None, [], []))
  }

  /** The allowed moves: those of the tables, and any from a known status that has no row. */
  lemma MovesExactly(kind: string, from: string, to: string)
    ensures Moves(kind, from, to) <==>
            && kind in LIFECYCLES && KnownStatus(kind, from) && KnownStatus(kind, to)
            && (from in LIFECYCLES[kind] ==> to in LIFECYCLES[kind][from])
  {
    var input := Input(kind, from, to, "human", None, [], []);
    assert !HasBlockingFinding(input.findings) && !HasUnresolvedMedium(input.findings, input.waivers, input.now);
    if !Moves(kind, from, to) {
      var reason :| reason in DenyReasons(input);
    }
  }

  /** The moves of the lifecycles, listed. */
  predicate Listed(kind: string, from: string, to: string) {
    match kind
    case "specification" => DocumentMove(from, to)
    case "threat-model" => DocumentMove(from, to)
    case "plan" => (from, to) in {("draft", "approved"), ("draft", "superseded"), ("approved", "superseded")}
    case "task" =>
      || (to == "blocked" && from in {"todo", "in_progress", "implemented", "in_review"})
      || (from, to) in {
           ("todo", "in_progress"), ("in_progress", "implemented"), ("implemented", "in_review"),
           ("in_review", "done"), ("in_review", "implemented"), ("blocked", "todo"), ("blocked", "in_progress")}
    case "waiver" => (from, to) in {("active", "expired"), ("active", "revoked")}
    case _ => false
  }

  predicate DocumentMove(from: string, to: string) {
    (from, to) in {
      ("draft", "in_review"), ("draft", "superseded"), ("in_review", "approved"), ("in_review", "rejected"),
      ("approved", "superseded"), ("rejected", "draft"), ("rejected", "superseded")}
  }

  /** From every status but superseded, exactly the listed moves are allowed. */
  lemma MovesListed(kind: string, from: string, to: string)
    requires from != "superseded"
    ensures Moves(kind, from, to) <==> Listed(kind, from, to)
  {
    hide Moves;
    MovesExactly(kind, from, to);
    TablesListed(kind, from, to);
  }

  lemma TablesListed(kind: string, from: string, to: string)
    requires from != "superseded"
    ensures
      (kind in LIFECYCLES && KnownStatus(kind, from) && KnownStatus(kind, to)
       && (from in LIFECYCLES[kind] ==> to in LIFECYCLES[kind][from])) <==> Listed(kind, from, to)
  {
    if kind == "task" {
      TasksListed(from, to);
    } else if kind == "specification" || kind == "threat-model" {
      DocumentsListed(kind, from, to);
    }
  }

  lemma TasksListed(from: string, to: string)
    ensures
      (KnownStatus("task", from) && KnownStatus("task", to)
       && (from in LIFECYCLES["task"] ==> to in LIFECYCLES["task"][from])) <==> Listed("task", from, to)
  {
  }

  lemma DocumentsListed(kind: string, from: string, to: string)
    requires (kind == "specification" || kind == "threat-model") && from != "superseded"
    ensures
      (KnownStatus(kind, from) && KnownStatus(kind, to)
       && (from in LIFECYCLES[kind] ==> to in LIFECYCLES[kind][from])) <==> Listed(kind, from, to)
  {
  }

  /** Superseded documents and plans can move to any status of their type; every other status obeys its row. */
  lemma UnboundExactly(kind: string, from: string)
    requires KnownStatus(kind, from)
    ensures (forall to :: KnownStatus(kind, to) ==> Moves(kind, from, to)) <==> from == "superseded"
  {
    forall to
      ensures Moves(kind, from, to) <==>
              KnownStatus(kind, to) && (from in LIFECYCLES[kind] ==> to in LIFECYCLES[kind][from])
    {
      MovesExactly(kind, from, to);
    }
    if from != "superseded" {
      assert from in LIFECYCLES[kind] && from !in LIFECYCLES[kind][from];
      assert !Moves(kind, from, from);
    }
  }

  /** A specification or threat model is approved only from review, or from superseded. */
  lemma ApprovedOnlyFromReview(input: Input)
    requires Allowed(input) && input.toStatus == "approved"
    requires input.artifactType == "specification" || input.artifactType == "threat-model"
    ensures input.fromStatus == "in_review" || input.fromStatus == "superseded"
    ensures input.actorType != "agent"
  {
    assert UNKNOWN_STATUS !in DenyReasons(input) && ILLEGAL_TRANSITION !in DenyReasons(input);
    assert DenyReason.AGENT_MAY_NOT_APPROVE !in DenyReasons(input);
  }

  // -------------------------------------------------------------------------------------- refinement

  /** What the waiver schema guarantees and the rules rely on. */
  ghost predicate SchemaValid(w: Waiver) {
    && w.riskId.Some? && w.severity == Some("medium") && w.status.Some?
    && w.createdAt.Some? && w.expiresAt.Some?
  }

  /** The control plane lets every finding through at this instant. */
  ghost predicate AllUnblocked(findings: seq<Finding>, waivers: seq<Waiver>, now: int) {
    forall f :: f in findings ==>
      f.riskId.Some? && f.severity.Some? && Unblocked(f.riskId.value, f.severity.value, waivers, Micros(now))
  }

  /** A waiver in force by the microsecond is unexpired by the nanosecond. */
  lemma InForceIsUnexpired(w: Waiver, now: int)
    requires InForce(w, Micros(now))
    ensures now < w.expiresAt.value
  {
  }

  /** A waiver that counts for both: in force in the control plane, and with instants the policy can parse. */
  ghost predicate Representable(w: Waiver, riskId: string, now: int) {
    Concerns(w, riskId) && InForce(w, Micros(now)) && InRange(now) && InRange(w.expiresAt.value)
  }

  /** The policy finds no fault when each medium finding has one waiver that counts for both. */
  lemma PolicyAccepts(findings: seq<Finding>, waivers: seq<Waiver>, now: int)
    requires AllUnblocked(findings, waivers, now) && forall w :: w in waivers ==> SchemaValid(w)
    requires forall f :: f in findings && f.severity == Some("medium") ==>
      exists w :: w in waivers && Representable(w, f.riskId.value, now)
    ensures !HasBlockingFinding(findings) && !HasUnresolvedMedium(findings, waivers, Some(now))
  {
    forall f | f in findings && f.severity == Some("medium")
      ensures MediumIsWaived(waivers, f.riskId, Some(now))
    {
      var w :| w in waivers && Representable(w, f.riskId.value, now);
      InForceIsUnexpired(w, now);
      assert Waives(w, f.riskId.value, Some(now));
    }
  }

  /** Active and unexpired to the nanosecond, whoever made and approved it. */
  ghost predicate Running(w: Waiver, riskId: string, now: int) {
    Concerns(w, riskId) && w.status == Some("active") && w.expiresAt.Some? && now < w.expiresAt.value
  }

  /**
   For findings the control plane unblocks, of any number and with any waivers: every medium one has a
   running waiver, and the policy agrees exactly when for each of them the clock and the expiry of
   some running waiver fit sixty-four bits of nanoseconds.
   */
  lemma PolicyAcceptsExactly(findings: seq<Finding>, waivers: seq<Waiver>, now: int)
    requires AllUnblocked(findings, waivers, now) && forall w :: w in waivers ==> SchemaValid(w)
    ensures !HasBlockingFinding(findings)
    ensures forall f :: f in findings && f.severity == Some("medium") ==>
      exists w :: w in waivers && Running(w, f.riskId.value, now)
    ensures !HasUnresolvedMedium(findings, waivers, Some(now)) <==>
      forall f :: f in findings && f.severity == Some("medium") ==>
        InRange(now) && exists w :: w in waivers && Running(w, f.riskId.value, now) && InRange(w.expiresAt.value)
  {
    forall f | f in findings && f.severity == Some("medium")
      ensures exists w :: w in waivers && Running(w, f.riskId.value, now)
      ensures MediumIsWaived(waivers, f.riskId, Some(now)) <==>
        InRange(now) && exists w :: w in waivers && Running(w, f.riskId.value, now) && InRange(w.expiresAt.value)
    {
      var w :| w in waivers && Concerns(w, f.riskId.value) && InForce(w, Micros(now));
      InForceIsUnexpired(w, now);
      assert Running(w, f.riskId.value, now);
      RunningIsWaiving(waivers, f.riskId.value, now);
    }
  }

  lemma RunningIsWaiving(waivers: seq<Waiver>, riskId: string, now: int)
    requires forall w :: w in waivers ==> SchemaValid(w)
    ensures forall w :: w in waivers ==>
      (Waives(w, riskId, Some(now)) <==> InRange(now) && Running(w, riskId, now) && InRange(w.expiresAt.value))
  {
  }

  const LATE := 253402300799 * 1000000000 // 9999-12-31T23:59:59Z

  const PERSON := Party(Some("human"), Some("security-reviewer"))
  const OWNER := Party(Some("human"), Some("author"))

  /** A waiver to the end of year 9999 unblocks its finding but the policy still denies. */
  lemma FarWaiverIsDenied()
    ensures
      var w := Waiver(Some("RISK-0001"), Some("medium"), Some("active"), PERSON, PERSON, OWNER, Some(0), Some(LATE));
      var findings := [Finding(Some("RISK-0001"), Some("medium"))];
      SchemaValid(w) && AllUnblocked(findings, [w], 1) && HasUnresolvedMedium(findings, [w], Some(1))
  {
    var w := Waiver(Some("RISK-0001"), Some("medium"), Some("active"), PERSON, PERSON, OWNER, Some(0), Some(LATE));
    assert w in [w] && Concerns(w, "RISK-0001") && InForce(w, Micros(1));
    var f := Finding(Some("RISK-0001"), Some("medium"));
    assert f in [f];
    PolicyAcceptsExactly([f], [w], 1);
    assert !InRange(LATE);
  }

  /** The policy alone is weaker: it accepts a waiver that an agent approved. */
  lemma PolicyIsWeaker()
    ensures
      var agent := Party(Some("agent"), Some("security-reviewer"));
      var w := Waiver(Some("RISK-0001"), Some("medium"), Some("active"), PERSON, agent, OWNER, Some(0), Some(2000));
      var findings := [Finding(Some("RISK-0001"), Some("medium"))];
      SchemaValid(w) && !HasUnresolvedMedium(findings, [w], Some(1)) && !AllUnblocked(findings, [w], 1)
  {
    var agent := Party(Some("agent"), Some("security-reviewer"));
    var w := Waiver(Some("RISK-0001"), Some("medium"), Some("active"), PERSON, agent, OWNER, Some(0), Some(2000));
    var f := Finding(Some("RISK-0001"), Some("medium"));
    assert f in [f] && w in [w] && Waives(w, "RISK-0001", Some(1));
    assert !InForce(w, Micros(1));
  }
}
