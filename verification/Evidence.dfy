/** The content-addressed evidence store and the capture of tool output. */
module Evidence {
  import opened Options
  import opened Json
  import opened Utf8
  import opened Hashing

  type Blobs = map<Str, Bytes>

  datatype Recovery = Found(data: Bytes) | Missing | Unsupported

  function Prefix(): (r: Str)
    ensures |r| == 7
  {
    Ascii("sha256:")
  }

  function Handle(digest: Str): (r: Str) {
    Prefix() + digest
  }

  function ResolveIn(blobs: Blobs, handle: Str): (r: Recovery) {
    if |handle| < 7 || handle[..7] != Prefix() then Unsupported
    else if handle[7..] in blobs then Found(blobs[handle[7..]])
    else Missing
  }

  /** Everything ever put is still filed under its digest, possibly replaced by something with the same digest. */
  ghost predicate Backed(hash: Hash, blobs: Blobs, puts: seq<Bytes>) {
    forall p :: p in puts ==>
      hash(p) in blobs && blobs[hash(p)] in puts && hash(blobs[hash(p)]) == hash(p)
  }

  ghost function InPlay(puts: seq<Bytes>): set<Bytes> {
    set p | p in puts
  }

  /** Without collisions every put is recovered byte for byte. */
  lemma PutsAreRecoverable(hash: Hash, blobs: Blobs, puts: seq<Bytes>, data: Bytes)
    requires Backed(hash, blobs, puts) && CollisionFree(hash, InPlay(puts)) && data in puts
    ensures ResolveIn(blobs, Handle(hash(data))) == Found(data)
  {
    var handle := Handle(hash(data));
    assert handle[..7] == Prefix() && handle[7..] == hash(data);
    assert data in InPlay(puts) && blobs[hash(data)] in InPlay(puts);
  }

  lemma PutKeepsBacked(hash: Hash, blobs: Blobs, puts: seq<Bytes>, data: Bytes)
    requires Backed(hash, blobs, puts)
    ensures Backed(hash, blobs[hash(data) := data], puts + [data])
  {
  }

  class EvidenceStore {
    const hash: Hash
    var blobs: Blobs
    ghost var puts: seq<Bytes>

    ghost predicate Valid()
      reads this
    {
      Backed(hash, blobs, puts)
    }

    /** Opens a store over what its directory already holds. */
    constructor (hash: Hash, existing: Blobs)
      ensures Valid() && this.hash == hash && blobs == existing && puts == []
    {
      this.hash := hash;
      blobs := existing;
      puts := [];
    }

    method Put(data: Bytes) returns (digest: Str)
      requires Valid()
      modifies this
      ensures Valid() && digest == hash(data)
      ensures blobs == old(blobs)[digest := data] && puts == old(puts) + [data]
    {
      PutKeepsBacked(hash, blobs, puts, data);
      digest := hash(data);
      blobs := blobs[digest := data];
      puts := puts + [data];
    }

    /** EvidenceStore.get; None stands for its KeyError. */
    method Get(digest: Str) returns (data: Option<Bytes>)
      ensures data == if digest in blobs then Some(blobs[digest]) else None
    {
      data := if digest in blobs then Some(blobs[digest]) else None;
    }

    method Resolve(handle: Str) returns (r: Recovery)
      ensures r == ResolveIn(blobs, handle)
    {
      if |handle| < 7 || handle[..7] != Prefix() {
        return Unsupported;
      }
      var data := Get(handle[7..]);
      r := if data.Some? then Found(data.value) else Missing;
    }
  }

  // --------------------------------------------------------------------------------------- capture

  const MAX_BYTES := 8192

  datatype Tier = TRUSTED | UNTRUSTED | SENSITIVE

  datatype Compression = NotApplied | Applied(originalDigest: Str, originalSize: nat, recoveryHandle: Str)

  /** What a record says about one action, besides what was stored for it. */
  datatype Subject = Subject(
    id: Str, createdAt: Str, actor: Json, runId: Str, action: Str, decisionRef: Str)

  datatype EvidenceRecord = EvidenceRecord(
    subject: Subject, tier: Tier, digest: Str, ref: Str, compression: Compression)

  function Compress(hash: Hash, raw: Bytes, tier: Tier): (r: Compression) {
    if tier != UNTRUSTED || |raw| <= MAX_BYTES then NotApplied
    else Applied(hash(raw), |raw|, Handle(hash(raw)))
  }

  function RecordOf(hash: Hash, raw: Bytes, subject: Subject, tier: Tier): (r: EvidenceRecord) {
    EvidenceRecord(subject, tier, hash(raw), Handle(hash(raw)), Compress(hash, raw, tier))
  }

  /** Stores the original and returns its record. None stands for SensitiveContentError or UnicodeEncodeError. */
  method ProcessToolOutput(store: EvidenceStore, text: Str, subject: Subject, tier: Tier)
    returns (r: Option<EvidenceRecord>)
    requires store.Valid()
    modifies store
    ensures store.Valid()
    ensures r.None? <==> tier == SENSITIVE || !Scalar(text)
    ensures r.None? ==> store.blobs == old(store.blobs) && store.puts == old(store.puts)
    ensures r.Some? ==>
      && r.value == RecordOf(store.hash, EncodeAll(text), subject, tier)
      && store.puts == old(store.puts) + [EncodeAll(text)]
      && store.blobs == old(store.blobs)[r.value.digest := EncodeAll(text)]
      && ResolveIn(store.blobs, r.value.ref) == Found(EncodeAll(text))
      && r.value.subject == subject && r.value.tier == tier
      && r.value.digest == store.hash(EncodeAll(text)) && r.value.ref == Ascii("sha256:") + r.value.digest
      && (r.value.compression.Applied? <==> tier == UNTRUSTED && |EncodeAll(text)| > 8192)
      && (r.value.compression.Applied? ==>
            && r.value.compression.originalDigest == r.value.digest
            && r.value.compression.originalSize == |EncodeAll(text)|
            && r.value.compression.recoveryHandle == r.value.ref)
  {
    if tier == SENSITIVE {
      return None;
    }
    var raw := Encode(text);
    if raw.None? {
      return None;
    }
    var compression := Compress(store.hash, raw.value, tier);
    var digest := store.Put(raw.value);
    assert Handle(digest)[..7] == Prefix() && Handle(digest)[7..] == digest;
    r := Some(EvidenceRecord(subject, tier, digest, Handle(digest), compression));
  }
}
