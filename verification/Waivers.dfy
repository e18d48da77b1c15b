/** Waivers of medium findings, as the control plane enforces them. */
module Waivers {
  import opened Options
  import opened Ordering

  /** Instants are nanoseconds since the epoch; Python keeps whole microseconds. */
  function Micros(instant: int): (r: int) {
    instant / 1000
  }

  datatype Party = Party(kind: Option<string>, role: Option<string>)

  /** A waiver as received: any field may be missing, and a timestamp that does not parse counts as missing. */
  datatype Waiver = Waiver(
    riskId: Option<string>, severity: Option<string>, status: Option<string>,
    createdBy: Party, approvedBy: Party, owner: Party, createdAt: Option<int>, expiresAt: Option<int>)

  datatype Reason =
    | AGENT_MAY_NOT_CREATE
    | AGENT_MAY_NOT_APPROVE
    | APPROVER_NOT_SECURITY_REVIEWER
    | APPROVER_IS_RISK_OWNER
    | EXPIRES_BEFORE_CREATED
    | SEVERITY_NOT_WAIVABLE
    | WAIVER_EXPIRED
    | WAIVER_REVOKED
    | WAIVER_MISSING
    | CRITICAL_NEVER_WAIVED
    | HIGH_NEVER_WAIVED
    | INVALID_WAIVER

  datatype WaiverCheck = WaiverCheck(valid: bool, state: string, reasons: seq<Reason>)

  datatype BlockDecision = BlockDecision(blocked: bool, reasons: seq<Reason>)

  const REVIEWER := Some("security-reviewer")
  const HUMAN := Some("human")

  // -------------------------------------------------------------------------------- what is promised

  /** Waivable, made and approved by humans, reviewed independently, and lasting some time. */
  ghost predicate Sound(w: Waiver) {
    && w.severity == Some("medium")
    && w.createdBy.kind == HUMAN && w.approvedBy.kind == HUMAN
    && w.approvedBy.role == REVIEWER && w.owner.role != REVIEWER
    && w.createdAt.Some? && w.expiresAt.Some? && Micros(w.createdAt.value) < Micros(w.expiresAt.value)
  }

  ghost predicate InForce(w: Waiver, now: int) {
    && Sound(w)
    && (w.status.None? || w.status == Some("active"))
    && now < Micros(w.expiresAt.value)
  }

  predicate Concerns(w: Waiver, riskId: string) {
    (if w.riskId.None? then "" else w.riskId.value) == riskId
  }

  /** Low findings never block; a medium one is unblocked by any waiver in force for it. */
  ghost predicate Unblocked(riskId: string, severity: string, waivers: seq<Waiver>, now: int) {
    || severity == "low"
    || (severity == "medium" && exists w :: w in waivers && Concerns(w, riskId) && InForce(w, now))
  }

  // ---------------------------------------------------------------------------------------- checking

  function If(condition: bool, reason: Reason): (r: seq<Reason>) {
    if condition then [reason] else []
  }

  function TimeProblems(w: Waiver): (r: seq<Reason>) {
    if w.createdAt.None? || w.expiresAt.None? then [INVALID_WAIVER]
    else If(Micros(w.expiresAt.value) <= Micros(w.createdAt.value), EXPIRES_BEFORE_CREATED)
  }

  function Problems(w: Waiver): (r: seq<Reason>) {
    If(w.severity != Some("medium"), SEVERITY_NOT_WAIVABLE)
    + If(w.createdBy.kind != HUMAN, AGENT_MAY_NOT_CREATE)
    + If(w.approvedBy.kind != HUMAN, AGENT_MAY_NOT_APPROVE)
    + If(w.approvedBy.role != REVIEWER, APPROVER_NOT_SECURITY_REVIEWER)
    + If(w.approvedBy.role == REVIEWER && w.owner.role == REVIEWER, APPROVER_IS_RISK_OWNER)
    + TimeProblems(w)
  }

  lemma SoundMeansNoProblems(w: Waiver)
    ensures Problems(w) == [] <==> Sound(w)
  {
  }

  method ValidateWaiver(w: Waiver) returns (reasons: seq<Reason>)
    ensures reasons == Problems(w)
    ensures reasons == [] <==> Sound(w)
  {
    hide Sound, If;
    reasons := If(w.severity != Some("medium"), SEVERITY_NOT_WAIVABLE);
    reasons := reasons + If(w.createdBy.kind != HUMAN, AGENT_MAY_NOT_CREATE);
    reasons := reasons + If(w.approvedBy.kind != HUMAN, AGENT_MAY_NOT_APPROVE);
    reasons := reasons + If(w.approvedBy.role != REVIEWER, APPROVER_NOT_SECURITY_REVIEWER);
    reasons := reasons + If(w.approvedBy.role == REVIEWER && w.owner.role == REVIEWER, APPROVER_IS_RISK_OWNER);
    reasons := reasons + TimeProblems(w);
    SoundMeansNoProblems(w);
  }

  function WaiverState(w: Waiver, now: int): (r: string) {
    if w.status.Some? && w.status.value != "active" then w.status.value
    else if w.expiresAt.None? then "invalid"
    else if now >= Micros(w.expiresAt.value) then "expired"
    else "active"
  }

  function StateProblems(state: string): (r: seq<Reason>) {
    if state == "expired" then [WAIVER_EXPIRED]
    else if state == "revoked" then [WAIVER_REVOKED]
    else if state != "active" then [INVALID_WAIVER]
    else []
  }

  function AllProblems(w: Waiver, now: int): (r: seq<Reason>) {
    Problems(w) + StateProblems(WaiverState(w, now))
  }

  /** The place of a reason among the faults of a waiver. */
  function Place(r: Reason): (n: nat) {
    match r
    case SEVERITY_NOT_WAIVABLE => 0
    case AGENT_MAY_NOT_CREATE => 1
    case AGENT_MAY_NOT_APPROVE => 2
    case APPROVER_NOT_SECURITY_REVIEWER => 3
    case APPROVER_IS_RISK_OWNER => 4
    case INVALID_WAIVER => 5
    case EXPIRES_BEFORE_CREATED => 5
    case _ => 6
  }

  /** Reasons in their places, all of them before `end`. */
  ghost predicate InPlace(s: seq<Reason>, end: nat) {
    && (forall i :: 0 <= i < |s| ==> Place(s[i]) < end)
    && (forall i, j :: 0 <= i < j < |s| ==> Place(s[i]) < Place(s[j]))
  }

  lemma PlaceNext(s: seq<Reason>, condition: bool, reason: Reason)
    requires InPlace(s, Place(reason))
    ensures
      var t := s + If(condition, reason);
      InPlace(t, Place(reason) + 1) && forall x :: x in t <==> x in s || (condition && x == reason)
  {
    assert If(condition, reason) == [] ==> s + If(condition, reason) == s;
  }

  lemma PlaceTimes(s: seq<Reason>, w: Waiver)
    requires InPlace(s, 5)
    ensures
      var t := s + TimeProblems(w);
      && InPlace(t, 6)
      && forall x :: x in t <==> x in s || x in TimeProblems(w)
  {
    assert TimeProblems(w) == [] ==> s + TimeProblems(w) == s;
  }

  /** The faults of a waiver are reported in a fixed order, and each reason stands for one fault. */
  lemma ProblemsExactly(w: Waiver)
    ensures InPlace(Problems(w), 6)
    ensures
      var r := Problems(w);
      && (SEVERITY_NOT_WAIVABLE in r <==> w.severity != Some("medium"))
      && (AGENT_MAY_NOT_CREATE in r <==> w.createdBy.kind != Some("human"))
      && (AGENT_MAY_NOT_APPROVE in r <==> w.approvedBy.kind != Some("human"))
      && (APPROVER_NOT_SECURITY_REVIEWER in r <==> w.approvedBy.role != Some("security-reviewer"))
      && (APPROVER_IS_RISK_OWNER in r <==>
            w.approvedBy.role == Some("security-reviewer") && w.owner.role == Some("security-reviewer"))
      && (INVALID_WAIVER in r <==> w.createdAt.None? || w.expiresAt.None?)
      && (EXPIRES_BEFORE_CREATED in r <==>
            w.createdAt.Some? && w.expiresAt.Some? && w.expiresAt.value / 1000 <= w.createdAt.value / 1000)
  {
    hide Problems, TimeProblems, InPlace;
    ProblemMembers(w);
    TimesExactly(w);
  }

  lemma ProblemMembers(w: Waiver)
    ensures InPlace(Problems(w), 6)
    ensures forall x :: x in Problems(w) <==>
      || (x == SEVERITY_NOT_WAIVABLE && w.severity != Some("medium"))
      || (x == AGENT_MAY_NOT_CREATE && w.createdBy.kind != HUMAN)
      || (x == AGENT_MAY_NOT_APPROVE && w.approvedBy.kind != HUMAN)
      || (x == APPROVER_NOT_SECURITY_REVIEWER && w.approvedBy.role != REVIEWER)
      || (x == APPROVER_IS_RISK_OWNER && w.approvedBy.role == REVIEWER && w.owner.role == REVIEWER)
      || x in TimeProblems(w)
  {
    var s1 := If(w.severity != Some("medium"), SEVERITY_NOT_WAIVABLE);
    var s2 := s1 + If(w.createdBy.kind != HUMAN, AGENT_MAY_NOT_CREATE);
    var s3 := s2 + If(w.approvedBy.kind != HUMAN, AGENT_MAY_NOT_APPROVE);
    var s4 := s3 + If(w.approvedBy.role != REVIEWER, APPROVER_NOT_SECURITY_REVIEWER);
    var s5 := s4 + If(w.approvedBy.role == REVIEWER && w.owner.role == REVIEWER, APPROVER_IS_RISK_OWNER);
    hide If, InPlace, TimeProblems;
    assert Problems(w) == s5 + TimeProblems(w);
    hide Problems;
    PlaceFirst(w.severity != Some("medium"));
    PlaceNext(s1, w.createdBy.kind != HUMAN, AGENT_MAY_NOT_CREATE);
    PlaceNext(s2, w.approvedBy.kind != HUMAN, AGENT_MAY_NOT_APPROVE);
    PlaceNext(s3, w.approvedBy.role != REVIEWER, APPROVER_NOT_SECURITY_REVIEWER);
    PlaceNext(s4, w.approvedBy.role == REVIEWER && w.owner.role == REVIEWER, APPROVER_IS_RISK_OWNER);
    PlaceTimes(s5, w);
  }

  lemma PlaceFirst(condition: bool)
    ensures
      var s := If(condition, SEVERITY_NOT_WAIVABLE);
      InPlace(s, 1) && forall x :: x in s <==> condition && x == SEVERITY_NOT_WAIVABLE
  {
  }

  lemma TimesExactly(w: Waiver)
    ensures forall x :: x in TimeProblems(w) <==>
      || (x == INVALID_WAIVER && (w.createdAt.None? || w.expiresAt.None?))
      || (x == EXPIRES_BEFORE_CREATED && w.createdAt.Some? && w.expiresAt.Some?
          && w.expiresAt.value / 1000 <= w.createdAt.value / 1000)
  {
  }

  /** What the state of a waiver adds to its faults. */
  lemma StateReasons(w: Waiver, now: int)
    ensures
      var active := w.status.None? || w.status == Some("active");
      AllProblems(w, now) == Problems(w) +
        if w.status == Some("revoked") then [WAIVER_REVOKED]
        else if w.status == Some("expired") then [WAIVER_EXPIRED]
        else if !active || w.expiresAt.None? then [INVALID_WAIVER]
        else if w.expiresAt.value / 1000 <= now then [WAIVER_EXPIRED]
        else []
  {
    hide Problems;
  }

  /** A waiver passes the check exactly when it is in force. */
  method CheckWaiver(w: Waiver, now: int) returns (r: WaiverCheck)
    ensures r == WaiverCheck(AllProblems(w, now) == [], WaiverState(w, now), AllProblems(w, now))
    ensures r.valid <==> InForce(w, now)
  {
    hide Problems;
    var reasons := ValidateWaiver(w);
    var state := WaiverState(w, now);
    reasons := reasons + StateProblems(state);
    r := WaiverCheck(reasons == [], state, reasons);
  }

  // ---------------------------------------------------------------------------------------- deciding

  function Matching(riskId: string, waivers: seq<Waiver>): (r: seq<Waiver>)
    ensures forall w :: w in r <==> w in waivers && Concerns(w, riskId)
  {
    if waivers == [] then []
    else (if Concerns(waivers[0], riskId) then [waivers[0]] else []) + Matching(riskId, waivers[1..])
  }

  /** Every reason of every waiver, in order, repeats included. */
  function Collected(waivers: seq<Waiver>, now: int): (r: seq<Reason>) {
    if waivers == [] then []
    else Collected(waivers[..|waivers| - 1], now) + AllProblems(waivers[|waivers| - 1], now)
  }

  /** tuple(dict.fromkeys(s)). */
  function FromKeys(s: seq<Reason>): (r: seq<Reason>) {
    if s == [] then []
    else
      var keys := FromKeys(s[..|s| - 1]);
      var last := s[|s| - 1];
      if last in keys then keys else keys + [last]
  }

  /** The position at which x first occurs. */
  ghost function First(s: seq<Reason>, x: Reason): (r: nat)
    requires x in s
    ensures r < |s| && s[r] == x && forall i :: 0 <= i < r ==> s[i] != x
  {
    if s[0] == x then 0 else 1 + First(s[1..], x)
  }

  /** d lists what occurs in s, once each, in the order of first occurrence. */
  ghost predicate FirstOccurrences(s: seq<Reason>, d: seq<Reason>) {
    && (forall x :: x in d <==> x in s)
    && (forall i, j :: 0 <= i < j < |d| && d[i] in s && d[j] in s ==> First(s, d[i]) < First(s, d[j]))
  }

  lemma FirstPrefix(s: seq<Reason>, last: Reason, x: Reason)
    requires x in s
    ensures x in s + [last] && First(s + [last], x) == First(s, x)
  {
    assert (s + [last])[First(s, x)] == x;
  }

  lemma {:induction false} FromKeysFirst(s: seq<Reason>)
    ensures FirstOccurrences(s, FromKeys(s))
  {
    if s != [] {
      var init, last := s[..|s| - 1], s[|s| - 1];
      var keys, d := FromKeys(init), FromKeys(s);
      FromKeysFirst(init);
      assert s == init + [last];
      forall i, j | 0 <= i < j < |d| && d[i] in s && d[j] in s
        ensures First(s, d[i]) < First(s, d[j])
      {
        assert d[i] == keys[i] && d[i] in keys;
        FirstPrefix(init, last, d[i]);
        if j < |keys| {
          assert d[j] == keys[j] && d[j] in keys;
          FirstPrefix(init, last, d[j]);
        } else {
          assert d[j] == last && last !in init;
        }
      }
    }
  }

  lemma FromKeysKeepsSome(s: seq<Reason>)
    requires s != []
    ensures FromKeys(s) != []
  {
  }

  lemma {:induction false} CollectedMembers(waivers: seq<Waiver>, now: int, x: Reason)
    ensures x in Collected(waivers, now) <==> exists w :: w in waivers && x in AllProblems(w, now)
  {
    hide AllProblems;
    if waivers != [] {
      var init, last := waivers[..|waivers| - 1], waivers[|waivers| - 1];
      CollectedMembers(init, now, x);
      assert waivers == init + [last];
    }
  }

  /** Decides whether a finding blocks, and says why. */
  method EvaluateRisk(riskId: string, severity: string, waivers: seq<Waiver>, now: int) returns (d: BlockDecision)
    ensures d.blocked <==> !Unblocked(riskId, severity, waivers, now)
    ensures d.blocked <==> d.reasons != []
    ensures severity == "critical" ==> d.reasons == [CRITICAL_NEVER_WAIVED]
    ensures severity == "high" ==> d.reasons == [HIGH_NEVER_WAIVED]
    ensures severity !in {"critical", "high", "medium", "low"} ==> d.reasons == [SEVERITY_NOT_WAIVABLE]
    ensures d.blocked && severity == "medium" ==>
      var matching := Matching(riskId, waivers);
      if matching == [] then d.reasons == [WAIVER_MISSING] else FirstOccurrences(Collected(matching, now), d.reasons)
  {
    hide InForce, AllProblems, Concerns, FromKeys, FirstOccurrences, Matching;
    if severity == "critical" {
      return BlockDecision(true, [CRITICAL_NEVER_WAIVED]);
    }
    if severity == "high" {
      return BlockDecision(true, [HIGH_NEVER_WAIVED]);
    }
    if severity == "low" {
      return BlockDecision(false, []);
    }
    if severity != "medium" {
      return BlockDecision(true, [SEVERITY_NOT_WAIVABLE]);
    }
    var matching := Matching(riskId, waivers);
    if matching == [] {
      return BlockDecision(true, [WAIVER_MISSING]);
    }
    var collected: seq<Reason> := [];
    for i := 0 to |matching|
      invariant collected == Collected(matching[..i], now)
      invariant forall k :: 0 <= k < i ==> !InForce(matching[k], now)
      invariant i > 0 ==> collected != []
    {
      var check := CheckWaiver(matching[i], now);
      if check.valid {
        assert matching[i] in waivers;
        return BlockDecision(false, []);
      }
      collected := collected + check.reasons;
      assert matching[..i + 1][..i] == matching[..i];
    }
    assert matching[..|matching|] == matching;
    FromKeysFirst(collected);
    FromKeysKeepsSome(collected);
    d := BlockDecision(true, FromKeys(collected));
  }

  // ----------------------------------------------------------------------------------------- lemmas

  /** Only which waivers there are matters, and more waivers never block more. */
  lemma UnblockedIsMonotone(riskId: string, severity: string, fewer: seq<Waiver>, more: seq<Waiver>, now: int)
    requires Unblocked(riskId, severity, fewer, now) && forall w :: w in fewer ==> w in more
    ensures Unblocked(riskId, severity, more, now)
  {
    if severity != "low" {
      var w :| w in fewer && Concerns(w, riskId) && InForce(w, now);
      assert w in more;
    }
  }

  lemma OrderIsIrrelevant(riskId: string, severity: string, a: seq<Waiver>, b: seq<Waiver>, now: int)
    requires multiset(a) == multiset(b)
    ensures Unblocked(riskId, severity, a, now) <==> Unblocked(riskId, severity, b, now)
  {
    SameMultiset(a, b);
  }

  /** Time only ever blocks: what is unblocked later was unblocked before. */
  lemma UnblockedIsAntitone(riskId: string, severity: string, waivers: seq<Waiver>, now: int, later: int)
    requires now <= later && Unblocked(riskId, severity, waivers, later)
    ensures Unblocked(riskId, severity, waivers, now)
  {
    if severity != "low" {
      var w :| w in waivers && Concerns(w, riskId) && InForce(w, later);
      assert InForce(w, now);
    }
  }

  /** The reasons given for a block are those of the matching waivers, in whatever order these come. */
  lemma ReasonsIgnoreOrder(riskId: string, a: seq<Waiver>, b: seq<Waiver>, now: int, x: Reason)
    requires multiset(a) == multiset(b)
    ensures x in FromKeys(Collected(Matching(riskId, a), now)) <==> x in FromKeys(Collected(Matching(riskId, b), now))
  {
    hide AllProblems, Concerns, FromKeys, Collected;
    SameMultiset(a, b);
    FromKeysFirst(Collected(Matching(riskId, a), now));
    FromKeysFirst(Collected(Matching(riskId, b), now));
    CollectedMembers(Matching(riskId, a), now, x);
    CollectedMembers(Matching(riskId, b), now, x);
  }
}
