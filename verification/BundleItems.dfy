/** Which evidence items a bundle lists, in what order, and what each of them says. */
module BundleItems {
  import opened Options
  import opened Json
  import opened CanonicalJson
  import opened Hashing
  import opened Bundle

  ghost predicate Increasing(picks: seq<nat>) {
    forall i, j :: 0 <= i < j < |picks| ==> picks[i] < picks[j]
  }

  /** `picks` are the positions of the elements that yield an item, and `items` lists these in order. */
  ghost predicate PickedItems<T>(
    item: T -> Option<seq<Item>>, elements: seq<T>, picks: seq<nat>, items: seq<Item>)
  {
    && Increasing(picks) && |picks| == |items|
    && (forall i :: 0 <= i < |picks| ==> picks[i] < |elements| && item(elements[picks[i]]) == Some([items[i]]))
    && (forall k :: 0 <= k < |elements| ==> (k in picks <==> item(elements[k]) != Some([])))
  }

  lemma {:induction false} GatherPicks<T>(item: T -> Option<seq<Item>>, elements: seq<T>) returns (picks: seq<nat>)
    requires Gather(item, elements).Some?
    requires forall k :: 0 <= k < |elements| && item(elements[k]).Some? ==> |item(elements[k]).value| <= 1
    ensures PickedItems(item, elements, picks, Gather(item, elements).value)
    decreases |elements|
  {
    picks := [];
    if elements != [] {
      var n := |elements| - 1;
      var front, last := elements[..n], elements[n];
      assert elements == front + [last];
      GatherSplit(item, front, [last]);
      GatherOne(item, last);
      picks := GatherPicks(item, front);
      hide Gather;
      var items := Gather(item, front).value;
      var found := item(last).value;
      assert found != [] ==> found == [found[0]];
      PickLast(item, front, last, picks, items);
      if found == [] {
        assert items + found == items;
      } else {
        picks := picks + [n];
      }
    }
  }

  lemma GatherOne<T>(item: T -> Option<seq<Item>>, x: T)
    ensures Gather(item, [x]) == item(x)
  {
    assert [x][1..] == [];
    BothLaws(item(x), None, None);
  }

  lemma PickLast<T>(item: T -> Option<seq<Item>>, front: seq<T>, last: T, picks: seq<nat>, items: seq<Item>)
    requires PickedItems(item, front, picks, items) && item(last).Some? && |item(last).value| <= 1
    ensures item(last).value == [] ==> PickedItems(item, front + [last], picks, items)
    ensures item(last).value != [] ==>
      PickedItems(item, front + [last], picks + [|front|], items + item(last).value)
  {
    var elements := front + [last];
    assert forall k :: 0 <= k < |front| ==> elements[k] == front[k];
    assert elements[|front|] == last;
    if item(last).value != [] {
      var x := item(last).value[0];
      assert item(last).value == [x];
      assert (items + [x])[|items|] == x;
    }
  }

  /** The elements of a list field, none when the field is absent or is not a list. */
  function Listed(candidate: seq<Field>, key: Str): (r: seq<Json>) {
    match Get(candidate, key) case Some(JArr(items)) => items case _ => []
  }

  function TextOf(show: Show, value: Option<Json>): (r: Str) {
    match value case Some(j) => show(j) case None => []
  }

  /** An item of the named kind for an object, with the digest of that object. */
  ghost predicate ItemFor(hash: Hash, item: Item, kind: string, ref: Str, j: Json) {
    item.kind == Ascii(kind) && item.ref == ref && Digest(hash, j) == Some(item.digest)
  }

  ghost predicate ObjectsListed(hash: Hash, candidate: seq<Field>, picks: seq<nat>, items: seq<Item>) {
    var kinds := ["signature", "sbom", "provenance"];
    && Increasing(picks) && |items| == |picks|
    && (forall k :: 0 <= k < 3 ==>
          (k in picks <==> Get(candidate, Ascii(kinds[k])).Some? && Get(candidate, Ascii(kinds[k])).value.JObj?))
    && (forall i :: 0 <= i < |picks| ==>
          && picks[i] < 3 && Get(candidate, Ascii(kinds[picks[i]])).Some?
          && ItemFor(hash, items[i], kinds[picks[i]], Ascii("candidate:") + Ascii(kinds[picks[i]]),
                     Get(candidate, Ascii(kinds[picks[i]])).value))
  }

  ghost predicate DecisionsListed(
    hash: Hash, show: Show, candidate: seq<Field>, picks: seq<nat>, items: seq<Item>)
  {
    var list := Listed(candidate, Ascii("policy_decisions"));
    && Increasing(picks) && |items| == |picks|
    && (forall k :: 0 <= k < |list| ==> (k in picks <==> list[k].JObj?))
    && (forall i :: 0 <= i < |picks| ==>
          && picks[i] < |list| && list[picks[i]].JObj?
          && ItemFor(hash, items[i], "policy-decision", TextOf(show, Get(list[picks[i]].fields, Ascii("point"))),
                     list[picks[i]]))
  }

  ghost function ActorText(show: Show, approval: seq<Field>): Str {
    match Get(approval, Ascii("actor"))
    case Some(JObj(actor)) => TextOf(show, Get(actor, Ascii("id")))
    case _ => []
  }

  ghost predicate ApprovalsListed(
    hash: Hash, show: Show, candidate: seq<Field>, picks: seq<nat>, items: seq<Item>)
  {
    var list := Listed(candidate, Ascii("approvals"));
    && Increasing(picks) && |items| == |picks|
    && (forall k :: 0 <= k < |list| ==> (k in picks <==> list[k].JObj?))
    && (forall i :: 0 <= i < |picks| ==>
          && picks[i] < |list| && list[picks[i]].JObj?
          && var fields := list[picks[i]].fields;
             ItemFor(hash, items[i], "approval",
                     TextOf(show, Get(fields, Ascii("role"))) + Ascii(":") + ActorText(show, fields), list[picks[i]]))
  }

  lemma ObjectsAre(hash: Hash, candidate: seq<Field>) returns (picks: seq<nat>)
    requires Gather(kind => ObjectItem(hash, candidate, kind), OBJECT_ITEMS).Some?
    ensures ObjectsListed(hash, candidate, picks, Gather(kind => ObjectItem(hash, candidate, kind), OBJECT_ITEMS).value)
  {
    hide Gather, Digest, Get, Ascii;
    picks := GatherPicks(kind => ObjectItem(hash, candidate, kind), OBJECT_ITEMS);
  }

  lemma DecisionsAre(hash: Hash, show: Show, candidate: seq<Field>) returns (picks: seq<nat>)
    requires GatherField(j => DecisionItem(hash, show, j), candidate, Ascii("policy_decisions")).Some?
    ensures DecisionsListed(hash, show, candidate, picks,
      GatherField(j => DecisionItem(hash, show, j), candidate, Ascii("policy_decisions")).value)
  {
    hide Gather, Digest, Get, Ascii;
    var item := j => DecisionItem(hash, show, j);
    var elements := Elements(candidate, Ascii("policy_decisions")).value;
    assert elements == Listed(candidate, Ascii("policy_decisions"));
    picks := GatherPicks(item, elements);
  }

  lemma ApprovalsAre(hash: Hash, show: Show, candidate: seq<Field>) returns (picks: seq<nat>)
    requires GatherField(j => ApprovalItem(hash, show, j), candidate, Ascii("approvals")).Some?
    ensures ApprovalsListed(hash, show, candidate, picks,
      GatherField(j => ApprovalItem(hash, show, j), candidate, Ascii("approvals")).value)
  {
    hide Gather, Digest, Get, Ascii;
    var item := j => ApprovalItem(hash, show, j);
    var elements := Elements(candidate, Ascii("approvals")).value;
    assert elements == Listed(candidate, Ascii("approvals"));
    picks := GatherPicks(item, elements);
  }

  /**
   The items of a candidate: its signature, SBOM and provenance, then its policy decisions, then its
   approvals, each group in its own order and each item naming its subject.
   */
  lemma ItemsAre(hash: Hash, show: Show, candidate: seq<Field>)
    returns (objects: seq<nat>, decisions: seq<nat>, approvals: seq<nat>)
    requires Items(hash, show, candidate).Some?
    ensures
      var items := Items(hash, show, candidate).value;
      var first, second := |objects|, |objects| + |decisions|;
      && |items| == second + |approvals|
      && ObjectsListed(hash, candidate, objects, items[..first])
      && DecisionsListed(hash, show, candidate, decisions, items[first..second])
      && ApprovalsListed(hash, show, candidate, approvals, items[second..])
  {
    hide Gather, GatherField, ObjectItem, DecisionItem, ApprovalItem, Ascii;
    objects := ObjectsAre(hash, candidate);
    decisions := DecisionsAre(hash, show, candidate);
    approvals := ApprovalsAre(hash, show, candidate);
    var a := Gather(kind => ObjectItem(hash, candidate, kind), OBJECT_ITEMS).value;
    var b := GatherField(j => DecisionItem(hash, show, j), candidate, Ascii("policy_decisions")).value;
    var c := GatherField(j => ApprovalItem(hash, show, j), candidate, Ascii("approvals")).value;
    assert |objects| == |a| && |decisions| == |b| && |approvals| == |c|;
    hide ObjectsListed, DecisionsListed, ApprovalsListed;
    var items := a + b + c;
    assert items[..|a|] == a && items[|a|..|a| + |b|] == b && items[|a| + |b|..] == c;
  }
}
