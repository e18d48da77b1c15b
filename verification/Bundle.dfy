/** Evidence bundles: what the digest of a bundle commits to. */
module Bundle {
  import opened Options
  import opened Json
  import opened Utf8
  import opened Hashing
  import opened CanonicalJson
  import opened Encodability

  /** Python's str() of a JSON value. */
  type Show = Json -> Str

  /** sha256_digest; None where the encoding raises. */
  function Digest(hash: Hash, j: Json): (r: Option<Str>) {
    var bytes := Encode(Canonical(j));
    if bytes.None? then None else Some(hash(bytes.value))
  }

  /** The bytes that are hashed for j. */
  function Hashed(j: Json): (r: Bytes) {
    EncodeAll(Canonical(j))
  }

  /** A digest exists exactly when no string in the value holds a surrogate. */
  lemma DigestIffScalar(hash: Hash, j: Json)
    ensures Digest(hash, j).Some? <==> ScalarJson(j)
  {
    EncodableIffScalar(PLAIN, j);
  }

  /** Under a hash without collisions on the two texts, digests agree exactly when the values do. */
  lemma DigestIffSameMeaning(hash: Hash, a: Json, b: Json)
    requires WellFormed(a) && WellFormed(b)
    requires Digest(hash, a).Some? && Digest(hash, b).Some?
    requires CollisionFree(hash, {Hashed(a), Hashed(b)})
    ensures Digest(hash, a) == Digest(hash, b) <==> Meaning(a) == Meaning(b)
  {
    CanonicalIffSameMeaning(a, b);
    if Digest(hash, a) == Digest(hash, b) {
      assert Hashed(a) == Hashed(b);
      EncodeInjective(Canonical(a), Canonical(b));
    }
  }

  lemma SameMeaningSameDigest(hash: Hash, a: Json, b: Json)
    requires WellFormed(a) && WellFormed(b) && Meaning(a) == Meaning(b)
    ensures Digest(hash, a) == Digest(hash, b)
  {
    CanonicalIffSameMeaning(a, b);
  }

  // ----------------------------------------------------------------------------------------- items

  datatype Item = Item(kind: Str, ref: Str, digest: Str)

  const OBJECT_ITEMS: seq<Str> := [Ascii("signature"), Ascii("sbom"), Ascii("provenance")]

  function ItemJson(item: Item): (r: Json) {
    JObj([(Ascii("kind"), JStr(item.kind)), (Ascii("ref"), JStr(item.ref)), (Ascii("digest"), JStr(item.digest))])
  }

  /** str(fields.get(key, "")). */
  function ShowField(show: Show, fields: seq<Field>, key: Str): (r: Str) {
    match Get(fields, key)
    case None => []
    case Some(j) => show(j)
  }

  function ItemOf(hash: Hash, kind: Str, ref: Str, j: Json): (r: Option<seq<Item>>) {
    match Digest(hash, j)
    case None => None
    case Some(digest) => Some([Item(kind, ref, digest)])
  }

  /** The item of an object-valued field of the candidate, if it has that field. */
  function ObjectItem(hash: Hash, candidate: seq<Field>, kind: Str): (r: Option<seq<Item>>) {
    match Get(candidate, kind)
    case Some(JObj(fields)) => ItemOf(hash, kind, Ascii("candidate:") + kind, JObj(fields))
    case _ => Some([])
  }

  function DecisionItem(hash: Hash, show: Show, decision: Json): (r: Option<seq<Item>>) {
    match decision
    case JObj(fields) =>
      ItemOf(hash, Ascii("policy-decision"), ShowField(show, fields, Ascii("point")), decision)
    case _ => Some([])
  }

  function ActorId(show: Show, approval: seq<Field>): (r: Str) {
    match Get(approval, Ascii("actor"))
    case Some(JObj(actor)) => ShowField(show, actor, Ascii("id"))
    case _ => []
  }

  function ApprovalItem(hash: Hash, show: Show, approval: Json): (r: Option<seq<Item>>) {
    match approval
    case JObj(fields) =>
      var ref := ShowField(show, fields, Ascii("role")) + Ascii(":") + ActorId(show, fields);
      ItemOf(hash, Ascii("approval"), ref, approval)
    case _ => Some([])
  }

  /** What a for loop over candidate.get(key, []) visits that may be an object; None where it raises. */
  function Elements(candidate: seq<Field>, key: Str): (r: Option<seq<Json>>) {
    match Get(candidate, key)
    case None => Some([])
    case Some(JArr(items)) => Some(items)
    case Some(JStr(_)) => Some([]) // visits characters
    case Some(JObj(_)) => Some([]) // visits keys
    case _ => None
  }

  function Both(a: Option<seq<Item>>, b: Option<seq<Item>>): (r: Option<seq<Item>>) {
    if a.Some? && b.Some? then Some(a.value + b.value) else None
  }

  /** The items of every element, in order; None when one of them raises. */
  function Gather<T>(item: T -> Option<seq<Item>>, elements: seq<T>): (r: Option<seq<Item>>) {
    if elements == [] then Some([]) else Both(item(elements[0]), Gather(item, elements[1..]))
  }

  function GatherField(item: Json -> Option<seq<Item>>, candidate: seq<Field>, key: Str): (r: Option<seq<Item>>) {
    match Elements(candidate, key)
    case None => None
    case Some(elements) => Gather(item, elements)
  }

  /** The ordered evidence items of a candidate. */
  function Items(hash: Hash, show: Show, candidate: seq<Field>): (r: Option<seq<Item>>) {
    Both(Both(Gather(kind => ObjectItem(hash, candidate, kind), OBJECT_ITEMS),
              GatherField(j => DecisionItem(hash, show, j), candidate, Ascii("policy_decisions"))),
         GatherField(j => ApprovalItem(hash, show, j), candidate, Ascii("approvals")))
  }

  lemma BothLaws(a: Option<seq<Item>>, b: Option<seq<Item>>, c: Option<seq<Item>>)
    ensures Both(Both(a, b), c) == Both(a, Both(b, c))
    ensures Both(Some([]), a) == a && Both(a, Some([])) == a
  {
    if a.Some? {
      assert [] + a.value == a.value && a.value + [] == a.value;
      if b.Some? && c.Some? {
        assert a.value + b.value + c.value == a.value + (b.value + c.value);
      }
    }
  }

  lemma {:induction false} GatherSplit<T>(item: T -> Option<seq<Item>>, a: seq<T>, b: seq<T>)
    ensures Gather(item, a + b) == Both(Gather(item, a), Gather(item, b))
  {
    if a == [] {
      BothLaws(Gather(item, b), None, None);
      assert a + b == b;
    } else {
      GatherSplit(item, a[1..], b);
      assert (a + b)[0] == a[0] && (a + b)[1..] == a[1..] + b;
      BothLaws(item(a[0]), Gather(item, a[1..]), Gather(item, b));
    }
  }

  /** One of the loops that append an item for each element to the list. */
  method AppendItems<T>(list: seq<Item>, item: T -> Option<seq<Item>>, elements: seq<T>)
    returns (r: Option<seq<Item>>)
    ensures r == Both(Some(list), Gather(item, elements))
  {
    r := Some(list);
    for i := 0 to |elements|
      invariant r.Some? && Both(Some(list), Gather(item, elements)) == Both(r, Gather(item, elements[i..]))
    {
      BothLaws(r, item(elements[i]), Gather(item, elements[i..][1..]));
      assert elements[i..][1..] == elements[i + 1..];
      if item(elements[i]).None? {
        return None;
      }
      r := Some(r.value + item(elements[i]).value);
    }
    BothLaws(r, Some([]), Some([]));
  }

  /** _collect_items: every loop appends to the same list, and the first exception ends it. */
  method CollectItems(hash: Hash, show: Show, candidate: seq<Field>) returns (items: Option<seq<Item>>)
    ensures items == Items(hash, show, candidate)
  {
    hide Gather, ObjectItem, DecisionItem, ApprovalItem;
    var decisions := Elements(candidate, Ascii("policy_decisions"));
    var approvals := Elements(candidate, Ascii("approvals"));
    items := AppendItems([], kind => ObjectItem(hash, candidate, kind), OBJECT_ITEMS);
    BothLaws(Gather(kind => ObjectItem(hash, candidate, kind), OBJECT_ITEMS), Some([]), Some([]));
    if items.None? || decisions.None? {
      return None;
    }
    items := AppendItems(items.value, j => DecisionItem(hash, show, j), decisions.value);
    if items.None? || approvals.None? {
      return None;
    }
    items := AppendItems(items.value, j => ApprovalItem(hash, show, j), approvals.value);
  }

  // ---------------------------------------------------------------------------------------- bundle

  function ItemsJson(items: seq<Item>): (r: seq<Json>)
    ensures |r| == |items|
    ensures forall i :: 0 <= i < |items| ==> r[i] == ItemJson(items[i])
  {
    seq(|items|, i requires 0 <= i < |items| => ItemJson(items[i]))
  }

  function Manifest(image: Str, candidateDigest: Str, items: seq<Item>): (r: Json) {
    JObj([(Ascii("image"), JStr(image)), (Ascii("candidate_digest"), JStr(candidateDigest)),
          (Ascii("items"), JArr(ItemsJson(items)))])
  }

  datatype EvidenceBundle = EvidenceBundle(image: Str, candidateDigest: Str, digest: Str, items: seq<Item>)

  /** build_evidence_bundle; None where it raises. */
  function Build(hash: Hash, show: Show, candidate: seq<Field>): (r: Option<EvidenceBundle>) {
    var image := ShowField(show, candidate, Ascii("image"));
    var candidateDigest := Digest(hash, JObj(candidate));
    var items := Items(hash, show, candidate);
    if candidateDigest.None? || items.None? then None
    else
      match Digest(hash, Manifest(image, candidateDigest.value, items.value))
      case None => None
      case Some(digest) => Some(EvidenceBundle(image, candidateDigest.value, digest, items.value))
  }

  lemma KeysApart(a: string, b: string)
    requires a != b
    ensures Ascii(a) != Ascii(b)
  {
  }

  lemma ItemWellFormed(item: Item)
    ensures WellFormed(ItemJson(item))
  {
  }

  lemma ItemMeaning(item: Item)
    ensures
      var m := Meaning(ItemJson(item));
      && m.VObj? && Ascii("kind") in m.fields && Ascii("ref") in m.fields && Ascii("digest") in m.fields
      && m.fields[Ascii("kind")] == VStr(item.kind) && m.fields[Ascii("ref")] == VStr(item.ref)
      && m.fields[Ascii("digest")] == VStr(item.digest)
  {
    hide FieldsMeaning;
    ItemWellFormed(item);
    var fields := ItemJson(item).fields;
    FieldsMeaningAt(fields);
    assert fields[0].0 == Ascii("kind") && fields[1].0 == Ascii("ref") && fields[2].0 == Ascii("digest");
  }

  lemma ItemsDetermined(a: seq<Item>, b: seq<Item>)
    requires ItemsMeaning(ItemsJson(a)) == ItemsMeaning(ItemsJson(b))
    ensures a == b
  {
    hide Meaning, ItemJson;
    var x, y := ItemsJson(a), ItemsJson(b);
    assert |a| == |ItemsMeaning(x)| == |b|;
    forall i | 0 <= i < |a|
      ensures a[i] == b[i]
    {
      assert Meaning(x[i]) == ItemsMeaning(x)[i] == ItemsMeaning(y)[i] == Meaning(y[i]);
      ItemMeaning(a[i]);
      ItemMeaning(b[i]);
    }
  }

  lemma ManifestWellFormed(image: Str, candidateDigest: Str, items: seq<Item>)
    ensures WellFormed(Manifest(image, candidateDigest, items))
  {
    KeysApart("image", "candidate_digest");
    KeysApart("image", "items");
    KeysApart("candidate_digest", "items");
    forall i | 0 <= i < |items|
      ensures WellFormed(ItemsJson(items)[i])
    {
      ItemWellFormed(items[i]);
    }
  }

  lemma ManifestMeaning(image: Str, candidateDigest: Str, items: seq<Item>)
    ensures
      var m := Meaning(Manifest(image, candidateDigest, items));
      && m.VObj? && Ascii("image") in m.fields && Ascii("candidate_digest") in m.fields
      && Ascii("items") in m.fields
      && m.fields[Ascii("image")] == VStr(image)
      && m.fields[Ascii("candidate_digest")] == VStr(candidateDigest)
      && m.fields[Ascii("items")] == VArr(ItemsMeaning(ItemsJson(items)))
  {
    hide FieldsMeaning;
    ManifestWellFormed(image, candidateDigest, items);
    var fields := Manifest(image, candidateDigest, items).fields;
    FieldsMeaningAt(fields);
    assert fields[0].0 == Ascii("image") && fields[1].0 == Ascii("candidate_digest") && fields[2].0 == Ascii("items");
  }

  lemma ManifestDetermines(image: Str, digest: Str, items: seq<Item>, image': Str, digest': Str, items': seq<Item>)
    requires Meaning(Manifest(image, digest, items)) == Meaning(Manifest(image', digest', items'))
    ensures image == image' && digest == digest' && items == items'
  {
    hide Meaning, Manifest;
    ManifestMeaning(image, digest, items);
    ManifestMeaning(image', digest', items');
    ItemsDetermined(items, items');
  }

  function BundleManifest(bundle: EvidenceBundle): (r: Json) {
    Manifest(bundle.image, bundle.candidateDigest, bundle.items)
  }

  ghost predicate Built(hash: Hash, show: Show, candidate: seq<Field>, bundle: EvidenceBundle) {
    WellFormed(JObj(candidate)) && Build(hash, show, candidate) == Some(bundle)
  }

  /** The texts hashed for two bundles and their candidates. */
  ghost function InPlay(a: seq<Field>, b: seq<Field>, x: EvidenceBundle, y: EvidenceBundle): set<Bytes> {
    {Hashed(JObj(a)), Hashed(JObj(b)), Hashed(BundleManifest(x)), Hashed(BundleManifest(y))}
  }

  /** Bundle digests agree exactly when the candidates mean the same and image and items agree. */
  lemma BundleCommits(
    hash: Hash, show: Show, a: seq<Field>, b: seq<Field>, x: EvidenceBundle, y: EvidenceBundle)
    requires Built(hash, show, a, x) && Built(hash, show, b, y)
    requires CollisionFree(hash, InPlay(a, b, x, y))
    ensures x.digest == y.digest <==>
            Meaning(JObj(a)) == Meaning(JObj(b)) && x.image == y.image && x.items == y.items
  {
    hide Meaning, Manifest, Digest, Items, WellFormed, Hashed;
    DigestIffSameMeaning(hash, JObj(a), JObj(b));
    ManifestWellFormed(x.image, x.candidateDigest, x.items);
    ManifestWellFormed(y.image, y.candidateDigest, y.items);
    DigestIffSameMeaning(hash, BundleManifest(x), BundleManifest(y));
    if x.digest == y.digest {
      ManifestDetermines(x.image, x.candidateDigest, x.items, y.image, y.candidateDigest, y.items);
    }
  }
}
