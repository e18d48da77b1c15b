/** The seven-stage pipeline: gated stages, identifiers, recorded artifacts and the final audit. */
module Pipeline {
  import opened Options
  import opened Ordering
  import opened Decimals
  import opened Traceability

  datatype Kind = Idea | Specification | ThreatModel | Plan | Task | SecurityReview | Review

  function Name(kind: Kind): (r: string)
    ensures r in CHAIN_ORDER
  {
    match kind
    case Idea => assert CHAIN_ORDER[0] == "idea"; "idea"
    case Specification => assert CHAIN_ORDER[1] == "specification"; "specification"
    case ThreatModel => assert CHAIN_ORDER[2] == "threat-model"; "threat-model"
    case Plan => assert CHAIN_ORDER[3] == "plan"; "plan"
    case Task => assert CHAIN_ORDER[4] == "task"; "task"
    case Review => assert CHAIN_ORDER[5] == "review"; "review"
    case SecurityReview => assert CHAIN_ORDER[6] == "security-review"; "security-review"
  }

  function Prefix(kind: Kind): (r: string)
    ensures '-' !in r
  {
    match kind
    case Idea => "IDEA"
    case Specification => "SPEC"
    case ThreatModel => "TM"
    case Plan => "PLAN"
    case Task => "TASK"
    case Review => "REV"
    case SecurityReview => "SECREV"
  }

  lemma PrefixesDiffer(a: Kind, b: Kind)
    requires Prefix(a) == Prefix(b)
    ensures a == b
  {
  }

  lemma NamesDiffer(kind: Kind)
    requires kind != Idea
    ensures Name(kind) != "idea"
  {
  }

  lemma EveryStageHasAName(name: string)
    requires name in CHAIN_ORDER
    ensures exists kind :: Name(kind) == name
  {
    var i :| 0 <= i < |CHAIN_ORDER| && CHAIN_ORDER[i] == name;
    var kind := [Idea, Specification, ThreatModel, Plan, Task, Review, SecurityReview][i];
    assert Name(kind) == name;
  }

  function Href(hrefPrefix: string, id: string): (r: string)
    ensures IsLocal(r)
  {
    var r := hrefPrefix + "/" + id + ".json";
    assert r[|r| - 5..] == ".json";
    r
  }

  lemma HrefInjective(hrefPrefix: string, a: string, b: string)
    requires Href(hrefPrefix, a) == Href(hrefPrefix, b)
    ensures a == b
  {
    var ra, rb := Href(hrefPrefix, a), Href(hrefPrefix, b);
    assert a == ra[|hrefPrefix| + 1..|ra| - 5];
    assert b == rb[|hrefPrefix| + 1..|rb| - 5];
  }

  /** Artifact validation, reduced to the facts of the schemas that the audit depends on. */
  predicate SchemaAllows(doc: Doc) {
    doc.id != "" && (doc.artifactType == "idea" ==> doc.hrefs == [] && doc.featureId == None)
  }

  /** Identifier counters, one per kind. */
  type Counters = map<Kind, nat>

  function Next(counters: Counters, kind: Kind): (r: nat) {
    (if kind in counters then counters[kind] else 0) + 1
  }

  function NextId(counters: Counters, kind: Kind): (r: string) {
    Identifier(Prefix(kind), Next(counters, kind))
  }

  function IdeaId(counters: Counters, idea: Doc): (r: string) {
    if idea.id != "" then idea.id else NextId(counters, Idea)
  }

  /** The identifier under which a run records a stage. */
  function StageId(counters: Counters, idea: Doc, kind: Kind): (r: string) {
    if kind == Idea then IdeaId(counters, idea) else NextId(counters, kind)
  }

  const ORDER := [Idea, Specification, ThreatModel, Plan, Task, SecurityReview, Review]

  /** The stage whose artifact a stage links to. */
  function Parent(kind: Kind): (r: Kind)
    requires kind != Idea
  {
    match kind
    case Specification => Idea
    case ThreatModel => Specification
    case Plan => ThreatModel
    case Task => Plan
    case SecurityReview => ThreatModel
    case Review => Task
  }

  /** The document a stage records; untrusted model output reaches none of these fields. */
  function StageDoc(feature: string, hrefPrefix: string, counters: Counters, idea: Doc, kind: Kind): (r: Doc) {
    if kind == Idea then idea
    else Doc(NextId(counters, kind), Name(kind), if kind == Review then None else Some(feature),
             [Href(hrefPrefix, StageId(counters, idea, Parent(kind)))])
  }

  /** The recorded artifacts after the first k stages of a run. */
  function Recorded(
    feature: string, hrefPrefix: string, counters: Counters, idea: Doc, written: map<string, Doc>, k: nat)
    : (r: map<string, Doc>)
    requires k <= 7
  {
    if k == 0 then written
    else Recorded(feature, hrefPrefix, counters, idea, written, k - 1)
         [StageId(counters, idea, ORDER[k - 1]) := StageDoc(feature, hrefPrefix, counters, idea, ORDER[k - 1])]
  }

  function ToIndex(hrefPrefix: string, written: map<string, Doc>): (index: Index)
    ensures forall id :: id in written ==> Href(hrefPrefix, id) in index && index[Href(hrefPrefix, id)] == written[id]
    ensures forall p :: p in index ==> exists id :: id in written && p == Href(hrefPrefix, id)
  {
    HrefsInjective(hrefPrefix);
    map id | id in written :: Href(hrefPrefix, id) := written[id]
  }

  lemma HrefsInjective(hrefPrefix: string)
    ensures forall a, b :: Href(hrefPrefix, a) == Href(hrefPrefix, b) ==> a == b
  {
    forall a, b | Href(hrefPrefix, a) == Href(hrefPrefix, b)
      ensures a == b
    {
      HrefInjective(hrefPrefix, a, b);
    }
  }

  /** Every local link of every recorded artifact names a recorded artifact. */
  ghost predicate Resolved(hrefPrefix: string, written: map<string, Doc>) {
    forall id, h :: id in written && h in written[id].hrefs && IsLocal(h) ==>
      exists target :: target in written && h == Href(hrefPrefix, target)
  }

  /** The caller's idea is an idea, and no stage of this run will be recorded over it. */
  predicate OwnIdea(counters: Counters, idea: Doc) {
    idea.artifactType == "idea" && forall kind :: kind != Idea ==> NextId(counters, kind) != IdeaId(counters, idea)
  }

  // --------------------------------------------------------------------------- the recorded chain

  lemma StageIdsDiffer(counters: Counters, a: Kind, b: Kind)
    requires a != b
    ensures NextId(counters, a) != NextId(counters, b)
  {
    if NextId(counters, a) == NextId(counters, b) {
      IdentifierInjective(Prefix(a), Next(counters, a), Prefix(b), Next(counters, b));
      PrefixesDiffer(a, b);
    }
  }

  /** A stage that is not overwritten is found under its identifier. */
  lemma {:induction false} StageIsRecorded(
    feature: string, hrefPrefix: string, counters: Counters, idea: Doc, written: map<string, Doc>, i: nat, k: nat)
    requires i < k <= 7
    requires ORDER[i] == Idea ==> OwnIdea(counters, idea)
    ensures
      var r := Recorded(feature, hrefPrefix, counters, idea, written, k);
      var id := StageId(counters, idea, ORDER[i]);
      id in r && r[id] == StageDoc(feature, hrefPrefix, counters, idea, ORDER[i])
  {
    hide NextId, IdeaId, StageDoc;
    if i < k - 1 {
      StageIsRecorded(feature, hrefPrefix, counters, idea, written, i, k - 1);
      if ORDER[i] != Idea {
        StageIdsDiffer(counters, ORDER[i], ORDER[k - 1]);
      }
    }
  }

  lemma {:induction false} RecordedKeeps(
    feature: string, hrefPrefix: string, counters: Counters, idea: Doc, written: map<string, Doc>, j: nat, k: nat)
    requires j <= k <= 7
    ensures Recorded(feature, hrefPrefix, counters, idea, written, j).Keys
         <= Recorded(feature, hrefPrefix, counters, idea, written, k).Keys
    ensures forall i :: 0 <= i < k ==>
              StageId(counters, idea, ORDER[i]) in Recorded(feature, hrefPrefix, counters, idea, written, k)
  {
    hide StageDoc, StageId;
    if k > 0 {
      RecordedKeeps(feature, hrefPrefix, counters, idea, written, if j == k then j - 1 else j, k - 1);
    }
  }

  lemma OrderDistinct()
    ensures ORDER[0] == Idea
    ensures forall i, j :: 0 <= i < j < 7 ==> ORDER[i] != ORDER[j]
  {
  }

  lemma ParentComesFirst(k: nat)
    requires 0 < k < 7
    ensures ORDER[k] != Idea
    ensures exists j :: 0 <= j < k && ORDER[j] == Parent(ORDER[k])
  {
    var j := [0, 0, 1, 2, 3, 2, 4][k];
    assert ORDER[j] == Parent(ORDER[k]);
  }

  /** Whatever stage a run stops at, the links of what it recorded resolve. */
  lemma {:induction false} RecordedResolves(
    feature: string, hrefPrefix: string, counters: Counters, idea: Doc, written: map<string, Doc>, k: nat)
    requires k <= 7 && Resolved(hrefPrefix, written)
    requires idea.hrefs == []
    ensures Resolved(hrefPrefix, Recorded(feature, hrefPrefix, counters, idea, written, k))
  {
    if k > 0 {
      var before := Recorded(feature, hrefPrefix, counters, idea, written, k - 1);
      RecordedResolves(feature, hrefPrefix, counters, idea, written, k - 1);
      if k - 1 > 0 {
        ParentComesFirst(k - 1);
        RecordedKeeps(feature, hrefPrefix, counters, idea, written, k - 1, k - 1);
      }
      var doc := StageDoc(feature, hrefPrefix, counters, idea, ORDER[k - 1]);
      AddResolved(hrefPrefix, before, StageId(counters, idea, ORDER[k - 1]), doc);
    }
  }

  lemma AddResolved(hrefPrefix: string, written: map<string, Doc>, id: string, doc: Doc)
    requires Resolved(hrefPrefix, written)
    requires doc.hrefs == [] || exists t :: t in written && doc.hrefs == [Href(hrefPrefix, t)]
    ensures Resolved(hrefPrefix, written[id := doc])
  {
  }

  lemma ResolvedHasNoDangling(hrefPrefix: string, written: map<string, Doc>, feature: string)
    requires Resolved(hrefPrefix, written)
    ensures forall h :: !Dangles(ToIndex(hrefPrefix, written), feature, h)
  {
  }

  /** A recorded stage of the feature, or one linked with such a stage, is part of the trace. */
  lemma RecordedIsTraced(
    hrefPrefix: string, written: map<string, Doc>, feature: string, id: string, neighbor: string)
    requires id in written && neighbor in written && written[neighbor].featureId == Some(feature)
    requires
      || id == neighbor
      || Href(hrefPrefix, id) in written[neighbor].hrefs || Href(hrefPrefix, neighbor) in written[id].hrefs
    ensures HasType(ToIndex(hrefPrefix, written), feature, written[id].artifactType)
  {
    var index := ToIndex(hrefPrefix, written);
    var p, q := Href(hrefPrefix, id), Href(hrefPrefix, neighbor);
    assert q in Seeds(index, feature);
    if id == neighbor {
      assert WalkFrom(index, feature, [q], p);
    } else {
      assert Adjacent(index, q, p);
      assert WalkFrom(index, feature, [q, p], p);
    }
    assert p in Selected(index, feature);
  }

  /** The stage of the feature through which the trace reaches a stage. */
  function Anchor(kind: Kind): (r: Kind)
    ensures r != Idea && r != Review
    ensures r == kind || (kind == Idea && Parent(r) == kind) || (kind == Review && Parent(kind) == r)
  {
    match kind
    case Idea => Specification
    case Review => Task
    case k => k
  }

  function Position(kind: Kind): (i: nat)
    ensures i < 7 && ORDER[i] == kind
  {
    match kind
    case Idea => 0
    case Specification => 1
    case ThreatModel => 2
    case Plan => 3
    case Task => 4
    case SecurityReview => 5
    case Review => 6
  }

  lemma StageIsTraced(
    feature: string, hrefPrefix: string, counters: Counters, idea: Doc, written: map<string, Doc>, kind: Kind)
    requires OwnIdea(counters, idea)
    ensures
      var final := Recorded(feature, hrefPrefix, counters, idea, written, 7);
      HasType(ToIndex(hrefPrefix, final), feature, Name(kind))
  {
    var final := Recorded(feature, hrefPrefix, counters, idea, written, 7);
    var anchor := Anchor(kind);
    StageIsRecorded(feature, hrefPrefix, counters, idea, written, Position(kind), 7);
    StageIsRecorded(feature, hrefPrefix, counters, idea, written, Position(anchor), 7);
    RecordedIsTraced(hrefPrefix, final, feature, StageId(counters, idea, kind), StageId(counters, idea, anchor));
  }

  /** The seven recorded artifacts of a run audit as COMPLETE, on top of any earlier resolved ones. */
  lemma FullChainIsComplete(
    feature: string, hrefPrefix: string, counters: Counters, idea: Doc, written: map<string, Doc>, t: Trace)
    requires OwnIdea(counters, idea) && SchemaAllows(idea) && Resolved(hrefPrefix, written)
    requires
      var final := Recorded(feature, hrefPrefix, counters, idea, written, 7);
      IsTrace(ToIndex(hrefPrefix, final), feature, t)
    ensures t.Complete()
  {
    var final := Recorded(feature, hrefPrefix, counters, idea, written, 7);
    var index := ToIndex(hrefPrefix, final);
    forall name | name in CHAIN_ORDER
      ensures HasType(index, feature, name)
    {
      EveryStageHasAName(name);
      var kind :| Name(kind) == name;
      StageIsTraced(feature, hrefPrefix, counters, idea, written, kind);
    }
    RecordedResolves(feature, hrefPrefix, counters, idea, written, 7);
    ResolvedHasNoDangling(hrefPrefix, final, feature);
    CompleteMeans(index, feature, t);
  }

  lemma {:induction false} NoIdeaRecorded(
    feature: string, hrefPrefix: string, counters: Counters, idea: Doc, k: nat, id: string)
    requires k <= 7 && id in Recorded(feature, hrefPrefix, counters, idea, map[], k)
    ensures
      var r := Recorded(feature, hrefPrefix, counters, idea, map[], k);
      r[id].artifactType == "idea" ==> idea.artifactType == "idea" && id == IdeaId(counters, idea) && r[id] == idea
  {
    if k > 0 {
      if ORDER[k - 1] != Idea {
        NamesDiffer(ORDER[k - 1]);
      }
      if id != StageId(counters, idea, ORDER[k - 1]) {
        NoIdeaRecorded(feature, hrefPrefix, counters, idea, k - 1, id);
      }
    }
  }

  /** The first run of a pipeline is COMPLETE exactly when its idea is an idea under an identifier of its own. */
  lemma FirstRunComplete(feature: string, hrefPrefix: string, counters: Counters, idea: Doc, t: Trace)
    requires SchemaAllows(idea)
    requires
      var final := Recorded(feature, hrefPrefix, counters, idea, map[], 7);
      IsTrace(ToIndex(hrefPrefix, final), feature, t)
    ensures t.Complete() <==> OwnIdea(counters, idea)
  {
    hide Recorded, IsTrace;
    var final := Recorded(feature, hrefPrefix, counters, idea, map[], 7);
    var index := ToIndex(hrefPrefix, final);
    if OwnIdea(counters, idea) {
      FullChainIsComplete(feature, hrefPrefix, counters, idea, map[], t);
    } else if t.Complete() {
      CompleteMeans(index, feature, t);
      assert CHAIN_ORDER[0] == "idea" && HasType(index, feature, "idea");
      var p :| p in Selected(index, feature) && index[p].artifactType == "idea";
      var id :| id in final && p == Href(hrefPrefix, id);
      NoIdeaRecorded(feature, hrefPrefix, counters, idea, 7, id);
      var kind :| kind != Idea && NextId(counters, kind) == IdeaId(counters, idea);
      StageIsRecorded(feature, hrefPrefix, counters, idea, map[], Position(kind), 7);
      NamesDiffer(kind);
    }
  }

  /** The stages of a run, in order, by the types of their artifacts. */
  lemma StageNames()
    ensures |ORDER| == 7 && Name(ORDER[0]) == "idea" && Name(ORDER[1]) == "specification"
    ensures Name(ORDER[2]) == "threat-model" && Name(ORDER[3]) == "plan" && Name(ORDER[4]) == "task"
    ensures Name(ORDER[5]) == "security-review" && Name(ORDER[6]) == "review"
  {
  }

  lemma FirstId(kind: Kind)
    ensures NextId(map[], kind) == Prefix(kind) + "-0001"
  {
    assert Digits(1) == [49] && Zeros(3) == [48, 48, 48];
    assert Padded(1) == "0001";
  }

  lemma FirstIds()
    ensures NextId(map[], Specification) == "SPEC-0001" && NextId(map[], ThreatModel) == "TM-0001"
    ensures NextId(map[], Plan) == "PLAN-0001" && NextId(map[], Task) == "TASK-0001"
    ensures NextId(map[], SecurityReview) == "SECREV-0001" && NextId(map[], Review) == "REV-0001"
    ensures NextId(map[], Idea) == "IDEA-0001"
  {
    hide NextId;
    FirstId(Specification);
    FirstId(ThreatModel);
    FirstId(Plan);
    FirstId(Task);
    FirstId(SecurityReview);
    FirstId(Review);
    FirstId(Idea);
  }

  /** What a first run records: every artifact by its identifier, type, feature and link. */
  lemma FirstRunRecords(feature: string, hrefPrefix: string, idea: Doc)
    requires OwnIdea(map[], idea) && idea.id != ""
    ensures
      var r := Recorded(feature, hrefPrefix, map[], idea, map[], 7);
      && Holds(r, idea)
      && Holds(r, Doc("SPEC-0001", "specification", Some(feature), [hrefPrefix + "/" + idea.id + ".json"]))
      && Holds(r, Doc("TM-0001", "threat-model", Some(feature), [hrefPrefix + "/" + "SPEC-0001" + ".json"]))
      && Holds(r, Doc("PLAN-0001", "plan", Some(feature), [hrefPrefix + "/" + "TM-0001" + ".json"]))
      && Holds(r, Doc("TASK-0001", "task", Some(feature), [hrefPrefix + "/" + "PLAN-0001" + ".json"]))
      && Holds(r, Doc("SECREV-0001", "security-review", Some(feature), [hrefPrefix + "/" + "TM-0001" + ".json"]))
      && Holds(r, Doc("REV-0001", "review", None, [hrefPrefix + "/" + "TASK-0001" + ".json"]))
  {
    hide Recorded, NextId, OwnIdea, Holds;
    FirstIds();
    RecordedStage(feature, hrefPrefix, idea, 0);
    RecordedStage(feature, hrefPrefix, idea, 1);
    RecordedStage(feature, hrefPrefix, idea, 2);
    RecordedStage(feature, hrefPrefix, idea, 3);
    RecordedStage(feature, hrefPrefix, idea, 4);
    RecordedStage(feature, hrefPrefix, idea, 5);
    RecordedStage(feature, hrefPrefix, idea, 6);
  }

  lemma RecordedStage(feature: string, hrefPrefix: string, idea: Doc, i: nat)
    requires OwnIdea(map[], idea) && idea.id != "" && i < 7
    ensures Holds(Recorded(feature, hrefPrefix, map[], idea, map[], 7),
                  StageDoc(feature, hrefPrefix, map[], idea, ORDER[i]))
  {
    hide Recorded, NextId, OwnIdea;
    StageIsRecorded(feature, hrefPrefix, map[], idea, map[], i, 7);
  }

  ghost predicate Holds(written: map<string, Doc>, doc: Doc) {
    doc.id in written && written[doc.id] == doc
  }

  // ---------------------------------------------------------------------- security review verdict

  datatype Severity = Critical | High | Medium | Low | OtherSeverity(text: string)

  /** A risk of the threat model; an empty test or waiver is none. */
  datatype Risk = Risk(id: string, severity: Severity, verificationTest: string, waiverId: string)

  datatype Disposition = Mitigated | WaivedMedium | AcceptedLow | OpenBlocking

  datatype RiskEntry = RiskEntry(riskId: string, severity: Severity, disposition: Disposition, evidence: Option<string>)

  datatype ReviewDocument = ReviewDocument(
    id: string, featureId: string, threatModelId: string, threatModelHref: string, approved: bool,
    entries: seq<RiskEntry>)

  function Dispose(risk: Risk): (r: Disposition) {
    match risk.severity
    case Critical => if risk.verificationTest != "" then Mitigated else OpenBlocking
    case High => if risk.verificationTest != "" then Mitigated else OpenBlocking
    case Medium => if risk.waiverId != "" then WaivedMedium else OpenBlocking
    case _ => AcceptedLow
  }

  /** What the review must say of a risk: its own id and severity, and its test as evidence of mitigation. */
  ghost predicate Reviews(entry: RiskEntry, risk: Risk) {
    && entry.riskId == risk.id && entry.severity == risk.severity && entry.disposition == Dispose(risk)
    && (entry.disposition.Mitigated? ==> entry.evidence == Some(risk.verificationTest))
    && (!entry.disposition.Mitigated? ==> entry.evidence.None?)
  }

  /**
   Reviews every risk in order. The review is approved exactly when no serious risk lacks a test and no
   medium one lacks a waiver.
   */
  method BuildSecurityReview(
    featureId: string, threatModelId: string, risks: seq<Risk>, artifactId: string, threatModelHref: string)
    returns (review: ReviewDocument)
    ensures review.id == artifactId && review.featureId == featureId
    ensures review.threatModelId == threatModelId && review.threatModelHref == threatModelHref
    ensures |review.entries| == |risks|
    ensures forall i :: 0 <= i < |risks| ==> Reviews(review.entries[i], risks[i])
    ensures review.approved <==> forall i :: 0 <= i < |risks| ==>
              && (risks[i].severity.Critical? || risks[i].severity.High? ==> risks[i].verificationTest != "")
              && (risks[i].severity.Medium? ==> risks[i].waiverId != "")
  {
    var entries: seq<RiskEntry> := [];
    var blocking := false;
    for i := 0 to |risks|
      invariant |entries| == i
      invariant forall k :: 0 <= k < i ==> Reviews(entries[k], risks[k])
      invariant blocking <==> exists k :: 0 <= k < i && Dispose(risks[k]).OpenBlocking?
    {
      var disposition := Dispose(risks[i]);
      if disposition.OpenBlocking? {
        blocking := true;
      }
      var evidence := if disposition.Mitigated? then Some(risks[i].verificationTest) else None;
      entries := entries + [RiskEntry(risks[i].id, risks[i].severity, disposition, evidence)];
    }
    review := ReviewDocument(artifactId, featureId, threatModelId, threatModelHref, !blocking, entries);
  }

  // ------------------------------------------------------------------------------------ the run

  /** Attaches links, skipping those whose href is already there. */
  method AddLinks(doc: Doc, links: seq<string>) returns (r: Doc)
    ensures r == doc.(hrefs := r.hrefs) && doc.hrefs <= r.hrefs
    ensures forall h :: h in r.hrefs <==> h in doc.hrefs || h in links
    ensures Distinct(r.hrefs[|doc.hrefs|..]) && forall h :: h in r.hrefs[|doc.hrefs|..] ==> h !in doc.hrefs
    ensures doc.hrefs == [] && |links| == 1 ==> r.hrefs == links
  {
    var added: seq<string> := [];
    for i := 0 to |links|
      invariant forall h :: h in added <==> h in links[..i] && h !in doc.hrefs
      invariant Distinct(added)
      invariant doc.hrefs == [] && i == 1 ==> added == [links[0]]
      invariant i == 0 ==> added == []
    {
      assert links[..i + 1] == links[..i] + [links[i]];
      if links[i] !in doc.hrefs && links[i] !in added {
        added := added + [links[i]];
      }
    }
    assert links[..|links|] == links;
    r := doc.(hrefs := doc.hrefs + added);
    assert r.hrefs[|doc.hrefs|..] == added;
  }

  /** What the environment does to one stage: token issue, model and policy, validation, gated write. */
  datatype StageEnv = StageEnv(
    skillToken: bool, skillAllowed: bool, valid: bool, writeToken: bool, writeAllowed: bool)

  /** One stage's audit trail, by the numbers of its decision and evidence records. */
  datatype StageResult = StageResult(kind: Kind, artifactId: string, decision: nat, evidence: nat)

  function DecisionId(n: nat): (r: string) {
    Identifier("PD", n)
  }

  function EvidenceId(n: nat): (r: string) {
    Identifier("EV", n)
  }

  /** Stages in order, each with its own decision and evidence number between `low` and `high`. */
  ghost predicate Trail(counters: Counters, idea: Doc, low: nat, high: nat, stages: seq<StageResult>) {
    && |stages| <= 7
    && (forall i :: 0 <= i < |stages| ==>
          && stages[i].kind == ORDER[i] && stages[i].artifactId == StageId(counters, idea, ORDER[i])
          && stages[i].decision == stages[i].evidence && low < stages[i].decision <= high)
    && (forall i, j :: 0 <= i < j < |stages| ==> stages[i].decision < stages[j].decision)
  }

  lemma TrailExtends(
    counters: Counters, idea: Doc, low: nat, high: nat, stages: seq<StageResult>, next: nat)
    requires Trail(counters, idea, low, high, stages) && |stages| < 7 && low <= high < next
    ensures Trail(counters, idea, low, next,
                  stages + [StageResult(ORDER[|stages|], StageId(counters, idea, ORDER[|stages|]), next, next)])
  {
  }

  lemma TrailWidens(counters: Counters, idea: Doc, low: nat, high: nat, stages: seq<StageResult>, next: nat)
    requires Trail(counters, idea, low, high, stages) && high <= next
    ensures Trail(counters, idea, low, next, stages)
  {
  }

  lemma NextRecorded(
    feature: string, hrefPrefix: string, counters: Counters, idea: Doc, written: map<string, Doc>, k: nat)
    requires 0 < k < 7 && ORDER[k] != Idea
    ensures
      var kind := ORDER[k];
      var id, parentId := NextId(counters, kind), StageId(counters, idea, Parent(kind));
      && id == StageId(counters, idea, kind)
      && Recorded(feature, hrefPrefix, counters, idea, written, k + 1) ==
         Recorded(feature, hrefPrefix, counters, idea, written, k)
           [id := Doc(id, Name(kind), if kind == Review then None else Some(feature), [Href(hrefPrefix, parentId)])]
  {
    hide Identifier, IdeaId, Name, Href;
  }

  class Pipeline {
    const feature: string
    const hrefPrefix: string
    var counters: Counters
    var decisionSeq: nat
    var evidenceSeq: nat
    var written: map<string, Doc>

    ghost predicate Valid()
      reads this
    {
      decisionSeq == evidenceSeq
    }

    constructor (feature: string, hrefPrefix: string)
      ensures Valid() && written == map[] && counters == map[] && decisionSeq == 0
      ensures this.feature == feature && this.hrefPrefix == hrefPrefix
    {
      this.feature, this.hrefPrefix := feature, hrefPrefix;
      counters, decisionSeq, evidenceSeq, written := map[], 0, 0, map[];
    }

    method ArtifactId(kind: Kind) returns (id: string)
      modifies this`counters
      ensures id == NextId(old(counters), kind)
      ensures counters == old(counters)[kind := Next(old(counters), kind)]
    {
      var next := (if kind in counters then counters[kind] else 0) + 1;
      counters := counters[kind := next];
      id := Identifier(Prefix(kind), next);
    }

    method Persist(kind: Kind, id: string, doc: Doc, env: StageEnv) returns (stage: Option<StageResult>)
      requires Valid()
      modifies this`decisionSeq, this`evidenceSeq, this`written
      ensures Valid() && old(decisionSeq) <= decisionSeq
      ensures stage.Some? ==> SchemaAllows(doc) && written == old(written)[id := doc]
      ensures stage.None? ==> written == old(written)
      ensures stage.Some? ==> stage.value == StageResult(kind, id, decisionSeq, evidenceSeq)
      ensures stage.Some? ==> old(decisionSeq) < decisionSeq
      ensures stage.Some? <==> env.valid && SchemaAllows(doc) && env.writeToken && env.writeAllowed
    {
      if !(env.valid && SchemaAllows(doc)) || !env.writeToken {
        return None;
      }
      decisionSeq := decisionSeq + 1;
      evidenceSeq := evidenceSeq + 1;
      if !env.writeAllowed {
        return None;
      }
      written := written[id := doc];
      return Some(StageResult(kind, id, decisionSeq, evidenceSeq));
    }

    /** A role skill, its links, and the gated write of what it assembled. */
    method Skill(kind: Kind, parentId: string, env: StageEnv)
      returns (stage: Option<StageResult>, artifactId: string)
      requires Valid() && kind != Idea
      modifies this
      ensures Valid() && old(decisionSeq) <= decisionSeq
      ensures artifactId == NextId(old(counters), kind)
      ensures counters == old(counters)[kind := Next(old(counters), kind)]
      ensures stage.None? ==> written == old(written)
      ensures stage.Some? ==>
        && written == old(written)[artifactId := Doc(artifactId, Name(kind),
             if kind == Review then None else Some(feature), [Href(hrefPrefix, parentId)])]
        && stage.value == StageResult(kind, artifactId, decisionSeq, evidenceSeq)
        && old(decisionSeq) < decisionSeq
    {
      artifactId := ArtifactId(kind);
      if kind != SecurityReview {
        if !env.skillToken {
          return None, artifactId;
        }
        decisionSeq := decisionSeq + 1;
        evidenceSeq := evidenceSeq + 1;
        if !env.skillAllowed {
          return None, artifactId;
        }
      }
      var assembled := Doc(artifactId, Name(kind), if kind == Review then None else Some(feature), []);
      var linked := AddLinks(assembled, [Href(hrefPrefix, parentId)]);
      stage := Persist(kind, artifactId, linked, env);
    }

    /** How far a run has come that began with these counters, records and sequence number. */
    ghost predicate Progress(
      counters0: Counters, written0: map<string, Doc>, seq0: nat, idea: Doc, stages: seq<StageResult>)
      reads this
    {
      var k := |stages|;
      && Valid() && k <= 7 && seq0 <= decisionSeq && (k > 0 ==> SchemaAllows(idea))
      && written == Recorded(feature, hrefPrefix, counters0, idea, written0, k)
      && Trail(counters0, idea, seq0, decisionSeq, stages)
    }

    /** The stages from the k-th on have drawn no identifier yet. */
    ghost predicate Undrawn(counters0: Counters, k: nat)
      reads this
    {
      forall i :: k <= i < 7 && 0 < i ==> Next(counters, ORDER[i]) == Next(counters0, ORDER[i])
    }

    /** The first stage: the caller's idea, under its own identifier or a generated one. */
    method Begin(idea: Doc, env: StageEnv) returns (ok: bool, id: string, stages: seq<StageResult>)
      requires Valid()
      modifies this
      ensures Progress(old(counters), old(written), old(decisionSeq), idea, stages)
      ensures |stages| == if ok then 1 else 0
      ensures id == StageId(old(counters), idea, Idea) && Undrawn(old(counters), 1)
    {
      hide Identifier;
      OrderDistinct();
      id := idea.id;
      if id == "" {
        id := ArtifactId(Idea);
      }
      var stage := Persist(Idea, id, idea, env);
      ok, stages := stage.Some?, [];
      if ok {
        stages := [stage.value];
      }
      assert written == Recorded(feature, hrefPrefix, old(counters), idea, old(written), |stages|);
    }

    /** The next stage of a run, linked to the artifact of its parent stage. */
    method Advance(
      kind: Kind, parentId: string, env: StageEnv, stages: seq<StageResult>,
      ghost counters0: Counters, ghost written0: map<string, Doc>, ghost seq0: nat, ghost idea: Doc)
      returns (ok: bool, id: string, further: seq<StageResult>)
      requires Progress(counters0, written0, seq0, idea, stages) && Undrawn(counters0, |stages|)
      requires 0 < |stages| < 7 && kind == ORDER[|stages|] && kind != Idea
      requires parentId == StageId(counters0, idea, Parent(kind))
      modifies this
      ensures Progress(counters0, written0, seq0, idea, further)
      ensures |further| == |stages| + (if ok then 1 else 0) && (ok ==> Undrawn(counters0, |further|))
      ensures id == StageId(counters0, idea, kind)
    {
      hide Identifier, IdeaId, SchemaAllows, Name, Recorded, Trail, Href;
      OrderDistinct();
      NextRecorded(feature, hrefPrefix, counters0, idea, written0, |stages|);
      ghost var high := decisionSeq;
      var stage;
      stage, id := Skill(kind, parentId, env);
      ok, further := stage.Some?, stages;
      if ok {
        further := stages + [stage.value];
        TrailExtends(counters0, idea, seq0, high, stages, decisionSeq);
      } else {
        TrailWidens(counters0, idea, seq0, high, stages, decisionSeq);
      }
    }

    /** What the audit of a finished run says. */
    lemma Audit(
      counters0: Counters, written0: map<string, Doc>, seq0: nat, idea: Doc, stages: seq<StageResult>, t: Trace)
      requires Progress(counters0, written0, seq0, idea, stages) && |stages| == 7
      requires IsTrace(ToIndex(hrefPrefix, written), feature, t)
      ensures OwnIdea(counters0, idea) && Resolved(hrefPrefix, written0) ==> t.Complete()
      ensures written0 == map[] ==> (t.Complete() <==> OwnIdea(counters0, idea))
    {
      hide SchemaAllows, IsTrace, OwnIdea;
      if OwnIdea(counters0, idea) && Resolved(hrefPrefix, written0) {
        FullChainIsComplete(feature, hrefPrefix, counters0, idea, written0, t);
      }
      if written0 == map[] {
        FirstRunComplete(feature, hrefPrefix, counters0, idea, t);
      }
    }

    /**
     Runs the seven stages. A run that raises has recorded exactly the artifacts of its first stages, in
     order; a run that returns has recorded all seven and audits them. Decision and evidence numbers
     advance together and never repeat. A returning run is COMPLETE when its idea is an idea that no stage
     overwrites, and a first run only then.
     */
    method Run(idea: Doc, env: seq<StageEnv>) returns (result: Option<Trace>, stages: seq<StageResult>)
      requires Valid() && |env| == 7
      modifies this
      ensures Progress(old(counters), old(written), old(decisionSeq), idea, stages)
      ensures result.Some? <==> |stages| == 7
      ensures result.Some? ==> IsTrace(ToIndex(hrefPrefix, written), feature, result.value)
      ensures result.Some? && OwnIdea(old(counters), idea) && Resolved(hrefPrefix, old(written)) ==>
                result.value.Complete()
      ensures result.Some? && old(written) == map[] ==>
                (result.value.Complete() <==> OwnIdea(old(counters), idea))
    {
      ghost var c0, w0, d0 := counters, written, decisionSeq;
      hide Progress, Undrawn, NextId, IdeaId, IsTrace, OwnIdea, Resolved;
      result := None;
      var ok, ideaId, specId, tmId, planId, taskId, secId, reviewId;
      ok, ideaId, stages := Begin(idea, env[0]);
      if !ok {
        return;
      }
      ok, specId, stages := Advance(Specification, ideaId, env[1], stages, c0, w0, d0, idea);
      if !ok {
        return;
      }
      ok, tmId, stages := Advance(ThreatModel, specId, env[2], stages, c0, w0, d0, idea);
      if !ok {
        return;
      }
      ok, planId, stages := Advance(Plan, tmId, env[3], stages, c0, w0, d0, idea);
      if !ok {
        return;
      }
      ok, taskId, stages := Advance(Task, planId, env[4], stages, c0, w0, d0, idea);
      if !ok {
        return;
      }
      ok, secId, stages := Advance(SecurityReview, tmId, env[5], stages, c0, w0, d0, idea);
      if !ok {
        return;
      }
      ok, reviewId, stages := Advance(Review, taskId, env[6], stages, c0, w0, d0, idea);
      if !ok {
        return;
      }
      var trace := TraceFeature(ToIndex(hrefPrefix, written), feature);
      result := Some(trace);
      Audit(c0, w0, d0, idea, stages, trace);
    }
  }

  /** The audit identifiers of different stages differ. */
  lemma AuditIdsDiffer(m: nat, n: nat)
    requires m != n
    ensures DecisionId(m) != DecisionId(n) && EvidenceId(m) != EvidenceId(n)
  {
    if DecisionId(m) == DecisionId(n) {
      IdentifierInjective("PD", m, "PD", n);
    }
    if EvidenceId(m) == EvidenceId(n) {
      IdentifierInjective("EV", m, "EV", n);
    }
  }
}
