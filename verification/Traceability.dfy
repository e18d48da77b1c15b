/** The traceability audit of one feature: a worklist search over artifact links, both ways. */
module Traceability {
  import opened Options
  import opened Ordering

  /** A repository-relative path, which is also how links name their target. */
  type Path = string

  /** The fields of an artifact document that the audit reads. */
  datatype Doc = Doc(id: string, artifactType: string, featureId: Option<string>, hrefs: seq<string>)

  type Index = map<Path, Doc>

  datatype TraceNode = TraceNode(artifactId: string, artifactType: string, path: Path, featureId: Option<string>)

  datatype Trace = Trace(
    featureId: string, nodes: seq<TraceNode>, orderedTypes: seq<string>, missingTypes: seq<string>,
    dangling: seq<string>)
  {
    predicate Complete() {
      missingTypes == [] && dangling == []
    }
  }

  const CHAIN_ORDER := ["idea", "specification", "threat-model", "plan", "task", "review", "security-review"]

  // --------------------------------------------------------------------------------- specification

  predicate IsLocal(href: string) {
    |href| >= 5 && href[|href| - 5..] == ".json"
  }

  ghost predicate LinksTo(index: Index, a: Path, b: Path) {
    a in index && b in index && b in index[a].hrefs && IsLocal(b)
  }

  ghost predicate Adjacent(index: Index, a: Path, b: Path) {
    LinksTo(index, a, b) || LinksTo(index, b, a)
  }

  ghost function Seeds(index: Index, feature: string): set<Path> {
    set p | p in index && index[p].featureId == Some(feature)
  }

  /** A walk along links, followed in either direction. */
  ghost predicate IsWalk(index: Index, walk: seq<Path>) {
    && walk != []
    && (forall i :: 0 <= i < |walk| ==> walk[i] in index)
    && (forall i :: 0 <= i < |walk| - 1 ==> Adjacent(index, walk[i], walk[i + 1]))
  }

  ghost predicate WalkFrom(index: Index, feature: string, walk: seq<Path>, p: Path) {
    IsWalk(index, walk) && walk[0] in Seeds(index, feature) && walk[|walk| - 1] == p
  }

  ghost predicate Reachable(index: Index, feature: string, p: Path) {
    exists walk :: WalkFrom(index, feature, walk, p)
  }

  ghost function Selected(index: Index, feature: string): set<Path> {
    set p | p in index && Reachable(index, feature, p)
  }

  /** The local links of reachable artifacts that resolve to nothing. */
  ghost predicate Dangles(index: Index, feature: string, href: string) {
    IsLocal(href) && href !in index && exists p :: p in Selected(index, feature) && href in index[p].hrefs
  }

  function NodeOf(index: Index, p: Path): (n: TraceNode)
    requires p in index
    ensures n.path == p && n.artifactId == index[p].id
    ensures n.artifactType == index[p].artifactType && n.featureId == index[p].featureId
  {
    TraceNode(index[p].id, index[p].artifactType, p, index[p].featureId)
  }

  function Rank(kind: string, chain: seq<string>): (r: nat)
    ensures r <= |chain| && kind !in chain[..r]
    ensures r < |chain| ==> chain[r] == kind
    ensures kind !in chain ==> r == |chain|
  {
    if chain == [] || chain[0] == kind then 0
    else
      var r := 1 + Rank(kind, chain[1..]);
      assert chain[..r] == [chain[0]] + chain[1..][..r - 1];
      r
  }

  predicate NodeLess(a: TraceNode, b: TraceNode) {
    var ra, rb := Rank(a.artifactType, CHAIN_ORDER), Rank(b.artifactType, CHAIN_ORDER);
    ra < rb || (ra == rb && StringLess(a.artifactId, b.artifactId))
  }

  ghost predicate HasType(index: Index, feature: string, kind: string) {
    exists p :: p in Selected(index, feature) && index[p].artifactType == kind
  }

  /** Kinds in chain order, kept when their presence is as asked. */
  function Kinds(chain: seq<string>, present: set<string>, wanted: bool): (r: seq<string>)
    ensures forall k :: k in r <==> k in chain && (k in present <==> wanted)
  {
    if chain == [] then []
    else (if (chain[0] in present) == wanted then [chain[0]] else []) + Kinds(chain[1..], present, wanted)
  }

  ghost function PresentTypes(index: Index, feature: string): set<string> {
    set p | p in Selected(index, feature) :: index[p].artifactType
  }

  /** What the audit of `feature` must report; only the order of tied nodes is left open. */
  ghost predicate IsTrace(index: Index, feature: string, t: Trace) {
    && t.featureId == feature
    && Sorted(NodeLess, t.nodes) && Distinct(t.nodes)
    && (forall n :: n in t.nodes <==> exists p :: p in Selected(index, feature) && n == NodeOf(index, p))
    && t.orderedTypes == Kinds(CHAIN_ORDER, PresentTypes(index, feature), true)
    && t.missingTypes == Kinds(CHAIN_ORDER, PresentTypes(index, feature), false)
    && StrictlySorted(StringLess, t.dangling)
    && (forall href :: href in t.dangling <==> Dangles(index, feature, href))
  }

  // -------------------------------------------------------------------------------- consequences

  /** The report does not depend on the order in which anything was visited. */
  lemma TraceUnique(index: Index, feature: string, a: Trace, b: Trace)
    requires IsTrace(index, feature, a) && IsTrace(index, feature, b)
    ensures a.dangling == b.dangling && a.missingTypes == b.missingTypes && a.orderedTypes == b.orderedTypes
    ensures a.Complete() <==> b.Complete()
    ensures forall n :: n in a.nodes <==> n in b.nodes
  {
    StringLessIsStrictOrder();
    StrictlySortedUnique(StringLess, a.dangling, b.dangling);
  }

  /** `picks` are increasing positions of `chain`, and `list` holds what is found there. */
  ghost predicate Picks(chain: seq<string>, picks: seq<nat>, list: seq<string>) {
    && |picks| == |list|
    && (forall i :: 0 <= i < |picks| ==> picks[i] < |chain| && list[i] == chain[picks[i]])
    && (forall i, j :: 0 <= i < j < |picks| ==> picks[i] < picks[j])
  }

  function Shifted(picks: seq<nat>): (r: seq<nat>)
    ensures |r| == |picks| && forall i :: 0 <= i < |r| ==> r[i] == picks[i] + 1
  {
    seq(|picks|, i requires 0 <= i < |picks| => picks[i] + 1)
  }

  lemma ShiftedMembers(picks: seq<nat>, k: nat)
    ensures k in Shifted(picks) <==> k > 0 && k - 1 in picks
  {
    if k > 0 && k - 1 in picks {
      var i :| 0 <= i < |picks| && picks[i] == k - 1;
      assert Shifted(picks)[i] == k;
    }
  }

  lemma ShiftPicks(chain: seq<string>, picks: seq<nat>, list: seq<string>)
    requires chain != [] && Picks(chain[1..], picks, list)
    ensures Picks(chain, Shifted(picks), list)
    ensures Picks(chain, [0] + Shifted(picks), [chain[0]] + list)
  {
    assert forall i :: 0 <= i < |picks| ==> chain[picks[i] + 1] == chain[1..][picks[i]];
  }

  lemma {:induction false} KindsPick(chain: seq<string>, present: set<string>, wanted: bool) returns (picks: seq<nat>)
    ensures Picks(chain, picks, Kinds(chain, present, wanted))
    ensures forall k :: 0 <= k < |chain| ==> (k in picks <==> (chain[k] in present) == wanted)
  {
    picks := [];
    if chain != [] {
      var rest := KindsPick(chain[1..], present, wanted);
      var list := Kinds(chain[1..], present, wanted);
      var kept := (chain[0] in present) == wanted;
      assert Kinds(chain, present, wanted) == if kept then [chain[0]] + list else list;
      hide Kinds, Picks, Shifted;
      ShiftPicks(chain, rest, list);
      PicksWanted(chain, present, wanted, rest);
      picks := if kept then [0] + Shifted(rest) else Shifted(rest);
    }
  }

  lemma PicksWanted(chain: seq<string>, present: set<string>, wanted: bool, rest: seq<nat>)
    requires chain != []
    requires forall k :: 0 <= k < |chain| - 1 ==> (k in rest <==> (chain[1..][k] in present) == wanted)
    ensures
      var picks := if (chain[0] in present) == wanted then [0] + Shifted(rest) else Shifted(rest);
      forall k :: 0 <= k < |chain| ==> (k in picks <==> (chain[k] in present) == wanted)
  {
    hide Shifted;
    var picks := if (chain[0] in present) == wanted then [0] + Shifted(rest) else Shifted(rest);
    forall k | 0 <= k < |chain|
      ensures k in picks <==> (chain[k] in present) == wanted
    {
      ShiftedMembers(rest, k);
      assert k > 0 ==> chain[k] == chain[1..][k - 1];
    }
  }

  /**
   Present and missing types are listed in chain order: each position of the chain is in exactly one of
   the two lists, in the first when an artifact of that type is reachable.
   */
  lemma TypesInChainOrder(index: Index, feature: string, t: Trace) returns (present: seq<nat>, missing: seq<nat>)
    requires IsTrace(index, feature, t)
    ensures
      var chain := ["idea", "specification", "threat-model", "plan", "task", "review", "security-review"];
      && Picks(chain, present, t.orderedTypes) && Picks(chain, missing, t.missingTypes)
      && (forall k :: 0 <= k < 7 ==> (k in present <==> HasType(index, feature, chain[k])))
      && (forall k :: 0 <= k < 7 ==> (k in missing <==> k !in present))
  {
    hide Kinds;
    var types := PresentTypes(index, feature);
    present := KindsPick(CHAIN_ORDER, types, true);
    missing := KindsPick(CHAIN_ORDER, types, false);
    assert forall kind :: kind in types <==> HasType(index, feature, kind);
  }

  /** COMPLETE means: every lifecycle stage is reachable and no reachable local link dangles. */
  lemma CompleteMeans(index: Index, feature: string, t: Trace)
    requires IsTrace(index, feature, t)
    ensures t.Complete() <==>
      && (forall kind :: kind in CHAIN_ORDER ==> HasType(index, feature, kind))
      && (forall href :: !Dangles(index, feature, href))
  {
    var present := PresentTypes(index, feature);
    if t.Complete() {
      forall kind | kind in CHAIN_ORDER
        ensures HasType(index, feature, kind)
      {
        assert kind !in t.missingTypes;
        assert kind in present;
      }
    }
    if t.missingTypes != [] {
      assert t.missingTypes[0] in t.missingTypes;
    }
    if t.dangling != [] {
      assert t.dangling[0] in t.dangling;
    }
  }

  /** Adding an artifact at a new path never drops a node from the trace and never adds a missing type. */
  lemma AddingKeepsNodes(index: Index, feature: string, path: Path, doc: Doc, before: Trace, after: Trace)
    requires path !in index
    requires IsTrace(index, feature, before) && IsTrace(index[path := doc], feature, after)
    ensures forall n :: n in before.nodes ==> n in after.nodes
    ensures forall kind :: kind in after.missingTypes ==> kind in before.missingTypes
  {
    var larger := index[path := doc];
    forall p | p in Selected(index, feature)
      ensures p in Selected(larger, feature) && NodeOf(larger, p) == NodeOf(index, p)
    {
      var walk :| WalkFrom(index, feature, walk, p);
      assert forall i :: 0 <= i < |walk| - 1 && Adjacent(index, walk[i], walk[i + 1]) ==>
               Adjacent(larger, walk[i], walk[i + 1]);
      assert WalkFrom(larger, feature, walk, p);
    }
    assert PresentTypes(index, feature) <= PresentTypes(larger, feature);
  }

  lemma WalkExtends(index: Index, feature: string, p: Path, q: Path)
    requires Reachable(index, feature, p) && Adjacent(index, p, q)
    ensures q in index && Reachable(index, feature, q)
  {
    var walk :| WalkFrom(index, feature, walk, p);
    assert WalkFrom(index, feature, walk + [q], q);
  }

  lemma SeedsAreReachable(index: Index, feature: string)
    ensures forall p :: p in Seeds(index, feature) ==> Reachable(index, feature, p)
  {
    forall p | p in Seeds(index, feature)
      ensures Reachable(index, feature, p)
    {
      assert WalkFrom(index, feature, [p], p);
    }
  }

  lemma {:induction false} WalkStaysInside(index: Index, walk: seq<Path>, closed: set<Path>, i: nat)
    requires IsWalk(index, walk) && walk[0] in closed && i < |walk|
    requires forall p, q :: p in closed && Adjacent(index, p, q) ==> q in closed
    ensures walk[i] in closed
  {
    if i > 0 {
      WalkStaysInside(index, walk, closed, i - 1);
      assert Adjacent(index, walk[i - 1], walk[i - 1 + 1]);
    }
  }

  /** A set of reachable paths that holds the seeds and is closed under links is the whole answer. */
  lemma ClosedIsSelected(index: Index, feature: string, closed: set<Path>)
    requires Seeds(index, feature) <= closed <= index.Keys
    requires forall p :: p in closed ==> Reachable(index, feature, p)
    requires forall p, q :: p in closed && Adjacent(index, p, q) ==> q in closed
    ensures closed == Selected(index, feature)
  {
    forall p | p in Selected(index, feature)
      ensures p in closed
    {
      var walk :| WalkFrom(index, feature, walk, p);
      WalkStaysInside(index, walk, closed, |walk| - 1);
    }
  }

  // ------------------------------------------------------------------------------- the algorithm

  /** The local links among some hrefs, in order and with repeats. */
  ghost function LocalHrefs(hrefs: seq<string>): (r: seq<string>)
    ensures forall h :: h in r <==> h in hrefs && IsLocal(h)
  {
    if hrefs == [] then []
    else
      var front, last := hrefs[..|hrefs| - 1], hrefs[|hrefs| - 1];
      assert hrefs == front + [last];
      if IsLocal(last) then LocalHrefs(front) + [last] else LocalHrefs(front)
  }

  method LocalLinkTargets(doc: Doc) returns (targets: seq<string>)
    ensures targets == LocalHrefs(doc.hrefs)
    ensures forall h :: h in targets <==> h in doc.hrefs && IsLocal(h)
  {
    hide IsLocal;
    targets := [];
    for i := 0 to |doc.hrefs|
      invariant targets == LocalHrefs(doc.hrefs[..i])
    {
      assert doc.hrefs[..i + 1][..i] == doc.hrefs[..i];
      if IsLocal(doc.hrefs[i]) {
        targets := targets + [doc.hrefs[i]];
      }
    }
    assert doc.hrefs[..|doc.hrefs|] == doc.hrefs;
  }

  /** Lists a set in whatever order it comes. */
  method ListOf(s: set<string>) returns (list: seq<string>)
    ensures Distinct(list) && forall x :: x in list <==> x in s
  {
    list := [];
    var rest := s;
    while rest != {}
      invariant rest <= s && Distinct(list)
      invariant forall x :: x in list <==> x in s && x !in rest
      decreases |rest|
    {
      var x :| x in rest;
      rest := rest - {x};
      list := list + [x];
    }
  }

  /** Reverse edges, so that artifacts that only point at the chain are found too. */
  method IncomingLinks(index: Index) returns (incoming: map<Path, seq<Path>>)
    ensures forall a, b :: LinksTo(index, a, b) <==> b in incoming && a in incoming[b]
  {
    incoming := map[];
    var rest := index.Keys;
    while rest != {}
      invariant rest <= index.Keys
      invariant forall a, b :: LinksTo(index, a, b) && a !in rest <==> b in incoming && a in incoming[b]
      decreases |rest|
    {
      var path :| path in rest;
      var targets := LocalLinkTargets(index[path]);
      ghost var before := incoming;
      for i := 0 to |targets|
        invariant forall a, b :: (b in incoming && a in incoming[b]) <==>
                    (b in before && a in before[b]) || (a == path && b in targets[..i] && b in index)
      {
        var href := targets[i];
        assert targets[..i + 1] == targets[..i] + [href];
        if href in index {
          incoming := incoming[href := (if href in incoming then incoming[href] else []) + [path]];
        }
      }
      assert targets[..|targets|] == targets;
      ghost var todo := rest;
      rest := rest - {path};
      forall a, b
        ensures LinksTo(index, a, b) && a !in rest <==> b in incoming && a in incoming[b]
      {
        assert LinksTo(index, a, b) && a !in todo <==> b in before && a in before[b];
      }
    }
  }

  /** The neighbours of one artifact, and the local links of its own that resolve to nothing. */
  method Neighbors(index: Index, incoming: map<Path, seq<Path>>, current: Path)
    returns (neighbors: seq<Path>, broken: seq<string>)
    requires current in index
    requires forall a, b :: LinksTo(index, a, b) <==> b in incoming && a in incoming[b]
    ensures forall q :: q in neighbors <==> Adjacent(index, current, q)
    ensures forall h :: h in broken <==> h in index[current].hrefs && IsLocal(h) && h !in index
  {
    neighbors, broken := [], [];
    var targets := LocalLinkTargets(index[current]);
    for i := 0 to |targets|
      invariant forall q :: q in neighbors <==> q in targets[..i] && q in index
      invariant forall h :: h in broken <==> h in targets[..i] && h !in index
    {
      assert targets[..i + 1] == targets[..i] + [targets[i]];
      if targets[i] in index {
        neighbors := neighbors + [targets[i]];
      } else {
        broken := broken + [targets[i]];
      }
    }
    assert targets[..|targets|] == targets;
    neighbors := neighbors + if current in incoming then incoming[current] else [];
  }

  /** The queue holds the old frontier and, once each, everything newly marked. */
  ghost predicate Queued(selected: set<Path>, frontier: seq<Path>, marked: set<Path>, queue: seq<Path>) {
    && Distinct(queue) && selected <= marked
    && (forall p :: p in queue <==> p in frontier || p in marked - selected)
    && |queue| - |frontier| == |marked - selected|
  }

  lemma QueueOne(selected: set<Path>, frontier: seq<Path>, marked: set<Path>, queue: seq<Path>, p: Path)
    requires Queued(selected, frontier, marked, queue) && p !in marked
    requires forall q :: q in frontier ==> q in selected
    ensures Queued(selected, frontier, marked + {p}, queue + [p])
  {
  }

  /** Marks the new neighbours and queues each of them once. */
  method Enqueue(selected: set<Path>, frontier: seq<Path>, neighbors: seq<Path>)
    returns (marked: set<Path>, queue: seq<Path>)
    requires Distinct(frontier) && forall p :: p in frontier ==> p in selected
    ensures marked == selected + (set p | p in neighbors)
    ensures Queued(selected, frontier, marked, queue)
  {
    hide Queued;
    marked, queue := selected, frontier;
    assert Queued(selected, frontier, marked, queue) by {
      QueueStarts(selected, frontier);
    }
    for i := 0 to |neighbors|
      invariant marked == selected + (set p | p in neighbors[..i])
      invariant Queued(selected, frontier, marked, queue)
    {
      assert neighbors[..i + 1] == neighbors[..i] + [neighbors[i]];
      if neighbors[i] !in marked {
        QueueOne(selected, frontier, marked, queue, neighbors[i]);
        marked := marked + {neighbors[i]};
        queue := queue + [neighbors[i]];
      }
    }
    assert neighbors[..|neighbors|] == neighbors;
  }

  lemma QueueStarts(selected: set<Path>, frontier: seq<Path>)
    requires Distinct(frontier)
    ensures Queued(selected, frontier, selected, frontier)
  {
  }

  /** Reachable paths are selected, and those no longer queued have been fully expanded. */
  ghost predicate SearchInv(
    index: Index, feature: string, selected: set<Path>, frontier: seq<Path>, dangling: set<string>)
  {
    && Seeds(index, feature) <= selected <= index.Keys
    && Distinct(frontier) && (forall p :: p in frontier ==> p in selected)
    && (forall p :: p in selected ==> Reachable(index, feature, p))
    && (forall p, q :: p in selected && p !in frontier && Adjacent(index, p, q) ==> q in selected)
    && (forall h :: h in dangling <==>
          IsLocal(h) && h !in index && exists p :: p in selected && p !in frontier && h in index[p].hrefs)
  }

  lemma PopLast(frontier: seq<Path>)
    requires frontier != [] && Distinct(frontier)
    ensures
      var rest, last := frontier[..|frontier| - 1], frontier[|frontier| - 1];
      Distinct(rest) && last !in rest && forall p :: p in frontier <==> p in rest || p == last
  {
  }

  /** Expanding one popped path keeps the search invariant and shrinks the measure. */
  lemma ExpandOne(
    index: Index, feature: string, selected: set<Path>, frontier: seq<Path>, dangling: set<string>,
    neighbors: seq<Path>, broken: set<string>, marked: set<Path>, queue: seq<Path>)
    requires SearchInv(index, feature, selected, frontier, dangling) && frontier != []
    requires
      var current := frontier[|frontier| - 1];
      && (forall q :: q in neighbors <==> Adjacent(index, current, q))
      && (forall h :: h in broken <==> h in index[current].hrefs && IsLocal(h) && h !in index)
    requires marked == selected + (set p | p in neighbors)
    requires Queued(selected, frontier[..|frontier| - 1], marked, queue)
    ensures SearchInv(index, feature, marked, queue, dangling + broken)
    ensures |index.Keys - marked| + |queue| < |index.Keys - selected| + |frontier|
  {
    hide Reachable, Seeds, Adjacent, IsLocal;
    var current := frontier[|frontier| - 1];
    PopLast(frontier);
    forall q | q in neighbors
      ensures q in index && Reachable(index, feature, q)
    {
      WalkExtends(index, feature, current, q);
    }
    assert marked <= index.Keys;
    assert index.Keys - selected == (index.Keys - marked) + (marked - selected);
    Expanded(selected, frontier, marked, queue);
    ExpandedDangling(index, selected, frontier, dangling, marked, queue, broken);
  }

  lemma Expanded(selected: set<Path>, frontier: seq<Path>, marked: set<Path>, queue: seq<Path>)
    requires frontier != [] && Distinct(frontier) && forall p :: p in frontier ==> p in selected
    requires Queued(selected, frontier[..|frontier| - 1], marked, queue)
    ensures forall p :: p in marked && p !in queue <==>
              (p in selected && p !in frontier) || p == frontier[|frontier| - 1]
    ensures forall p :: p in queue ==> p in marked
  {
  }

  lemma ExpandedDangling(
    index: Index, selected: set<Path>, frontier: seq<Path>, dangling: set<string>,
    marked: set<Path>, queue: seq<Path>, broken: set<string>)
    requires selected <= marked <= index.Keys && frontier != [] && frontier[|frontier| - 1] in index
    requires forall h :: h in dangling <==>
               IsLocal(h) && h !in index && exists p :: p in selected && p !in frontier && h in index[p].hrefs
    requires forall h :: h in broken <==>
               h in index[frontier[|frontier| - 1]].hrefs && IsLocal(h) && h !in index
    requires forall p :: p in marked && p !in queue <==>
               (p in selected && p !in frontier) || p == frontier[|frontier| - 1]
    ensures forall h :: h in dangling + broken <==>
              IsLocal(h) && h !in index && exists p :: p in marked && p !in queue && h in index[p].hrefs
  {
    forall h
      ensures h in dangling + broken <==>
              IsLocal(h) && h !in index && exists p :: p in marked && p !in queue && h in index[p].hrefs
    {
      if h in broken {
        assert frontier[|frontier| - 1] in marked && frontier[|frontier| - 1] !in queue;
      }
    }
  }

  lemma SearchStarts(index: Index, feature: string, selected: set<Path>, frontier: seq<Path>)
    requires selected == Seeds(index, feature) && Distinct(frontier) && forall p :: p in frontier <==> p in selected
    ensures SearchInv(index, feature, selected, frontier, {})
  {
    hide Reachable;
    SeedsAreReachable(index, feature);
  }

  lemma SearchPops(index: Index, feature: string, selected: set<Path>, frontier: seq<Path>, dangling: set<string>)
    requires SearchInv(index, feature, selected, frontier, dangling) && frontier != []
    ensures
      var rest := frontier[..|frontier| - 1];
      frontier[|frontier| - 1] in index && Distinct(rest) && forall p :: p in rest ==> p in selected
  {
  }

  lemma SearchEnds(index: Index, feature: string, selected: set<Path>, dangling: set<string>)
    requires SearchInv(index, feature, selected, [], dangling)
    ensures selected == Selected(index, feature)
    ensures forall href :: href in dangling <==> Dangles(index, feature, href)
  {
    hide Reachable;
    ClosedIsSelected(index, feature, selected);
  }

  /** The worklist: the answer is the reachable set and its dangling links, for every pop order. */
  method Search(index: Index, feature: string) returns (selected: set<Path>, dangling: set<string>)
    ensures selected == Selected(index, feature)
    ensures forall href :: href in dangling <==> Dangles(index, feature, href)
  {
    hide SearchInv, Selected, Dangles, Queued, Distinct, Adjacent;
    var incoming := IncomingLinks(index);
    selected, dangling := set p | p in index && index[p].featureId == Some(feature), {};
    var frontier := ListOf(selected);
    SearchStarts(index, feature, selected, frontier);
    while frontier != []
      invariant SearchInv(index, feature, selected, frontier, dangling)
      decreases |index.Keys - selected| + |frontier|
    {
      var current, rest := frontier[|frontier| - 1], frontier[..|frontier| - 1];
      SearchPops(index, feature, selected, frontier, dangling);
      var neighbors, broken := Neighbors(index, incoming, current);
      var marked, queue := Enqueue(selected, rest, neighbors);
      ExpandOne(index, feature, selected, frontier, dangling, neighbors, (set h | h in broken), marked, queue);
      selected, frontier, dangling := marked, queue, dangling + (set h | h in broken);
    }
    SearchEnds(index, feature, selected, dangling);
  }

  lemma NodeLessIsWeakOrder()
    ensures WeakOrder(NodeLess)
  {
    StringLessIsStrictOrder();
  }

  /** Audits one feature. */
  method TraceFeature(index: Index, feature: string) returns (t: Trace)
    ensures IsTrace(index, feature, t)
  {
    var selected, dangling := Search(index, feature);
    var paths := ListOf(selected);
    var nodes: seq<TraceNode> := [];
    for i := 0 to |paths|
      invariant |nodes| == i
      invariant forall k :: 0 <= k < i ==> paths[k] in index && nodes[k] == NodeOf(index, paths[k])
    {
      assert paths[i] in selected;
      nodes := nodes + [NodeOf(index, paths[i])];
    }
    var sorted := Sort(NodeLess, nodes);
    NodesSorted(index, paths, nodes);
    var present := set n | n in sorted :: n.artifactType;
    assert present == PresentTypes(index, feature) by {
      TypesOfNodes(index, selected, sorted);
    }
    var hrefs := ListOf(dangling);
    StringLessIsStrictOrder();
    SortStrictlySorted(StringLess, hrefs);
    t := Trace(feature, sorted, Kinds(CHAIN_ORDER, present, true), Kinds(CHAIN_ORDER, present, false),
               Sort(StringLess, hrefs));
  }

  lemma NodesSorted(index: Index, paths: seq<Path>, nodes: seq<TraceNode>)
    requires Distinct(paths) && |nodes| == |paths|
    requires forall k :: 0 <= k < |paths| ==> paths[k] in index && nodes[k] == NodeOf(index, paths[k])
    ensures
      var sorted := Sort(NodeLess, nodes);
      && Sorted(NodeLess, sorted) && Distinct(sorted)
      && (forall n :: n in sorted <==> exists p :: p in paths && p in index && n == NodeOf(index, p))
  {
    hide NodeLess;
    var sorted := Sort(NodeLess, nodes);
    NodeLessIsWeakOrder();
    SortSorted(NodeLess, nodes);
    SameMultiset(sorted, nodes);
    assert Distinct(nodes) by {
      forall i, j | 0 <= i < j < |nodes|
        ensures nodes[i] != nodes[j]
      {
        assert nodes[i].path == paths[i] && nodes[j].path == paths[j];
      }
    }
    DistinctFromMultiset(nodes, sorted);
    forall n
      ensures n in sorted <==> exists p :: p in paths && p in index && n == NodeOf(index, p)
    {
      if n in nodes {
        var k :| 0 <= k < |nodes| && nodes[k] == n;
        assert paths[k] in paths;
      }
      if p :| p in paths && p in index && n == NodeOf(index, p) {
        var k :| 0 <= k < |paths| && paths[k] == p;
        assert nodes[k] == n;
      }
    }
  }

  lemma TypesOfNodes(index: Index, selected: set<Path>, nodes: seq<TraceNode>)
    requires selected <= index.Keys
    requires forall n :: n in nodes <==> exists p :: p in selected && n == NodeOf(index, p)
    ensures (set n | n in nodes :: n.artifactType) == (set p | p in selected :: index[p].artifactType)
  {
    forall p | p in selected
      ensures index[p].artifactType in (set n | n in nodes :: n.artifactType)
    {
      assert NodeOf(index, p) in nodes;
    }
  }
}
