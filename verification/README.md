# Verified models of the request platform and its control plane

The repository has two halves, and this project models the hard core of both.

* **The request platform** (Go, `apps/`). A domain service commits requests together with outbox events, a publisher
  polls the outbox and publishes to a broker, and a worker deduplicates and applies what the broker delivers. Here it
  is one transition system in which every remote call is a step of its own, may fail, and may have taken effect although
  it reported a failure. Every sequence of actions is a run, so the theorems hold for every interleaving of any number of
  RPCs, pollers and handlers. The service, the stores, the poller and the worker callback are also modelled as classes
  whose methods are proved to behave as runs of that system.
* **The control plane** (Python, `control-plane/`, and one Rego policy). The traceability audit and the seven-stage
  pipeline it must accept, JSON text as Python writes and reads it, canonical digests and evidence bundles, signed
  capability tokens, the run registry, the gated executor with its content-addressed evidence, the bridge that mints
  capabilities, and the waiver rules with the policy that repeats them.

Hash functions and HMAC are arbitrary functions; freedom from collisions is a hypothesis about the byte strings in play.
Clocks, random identifiers, policy answers, tool handlers and language models are parameters, so each theorem holds for
every answer they may give.

What the code does not do, although its documentation or a reader might expect it, is stated with a counterexample and
the exact condition under which it does:

* two overlapping status updates can move a cancelled request on (`RaceRevivesCancelled`); the log is a legal path for
  each request exactly when no update commits over a stale read (`PathsIffNoStaleWrite`);
* the worker records an event before it applies it, so a crash in between, a failing side effect, or an insert that takes
  effect behind an error loses the event for good (`CrashLosesEvent`, `FailureIsNotRetried`, `LossIsForever`); at rest
  every event has been applied exactly once, with success, if and only if no step of the run was one of these
  (`ExactlyOnce`);
* starting a run again under the same id revives its unexpired tokens (`RestartRevives`);
* a token reads back as issued exactly when no claim splits a surrogate pair (`TokenRoundTrip`), and decoding, whose
  docstring says it never raises, raises exactly on well-shaped tokens that are not ASCII (`DecodeRaisesExactly`,
  `AccentedSignatureRaises`);
* an authorised call whose arguments hold a surrogate runs its tool and leaves no record (`HandlerRunsUnrecorded`,
  `RaisesExactly`);
* the key order of a candidate can show in its bundle (`KeyOrderShows`) if and only if some quoted value holds an object
  with two or more keys (`OrderFreeExactly`). The gate validates candidates first, and the schema types the quoted fields
  as strings, so candidates that reach the bundle through it are always safe (`TextIsRigid`); only direct callers of the
  bundle functions can see the difference;
* a waiver that expires after 2262 unblocks its finding in Python but not in Rego (`FarWaiverIsDenied`,
  `PolicyAcceptsExactly`), and a superseded document may move to any status (`UnboundExactly`).

Modules: `Lifecycle`, `RequestStore`, `RequestService`, `StatusRaces`, `Lives` (domain service); `Delivery`, `DeliveryAccounting`,
`DeliveryLoss`, `DeliveryOrder`, `Actors`, `Publisher`, `Draining`, `Worker` (outbox to side effect); `Traceability`, `Pipeline`
(audit); `Json`, `JsonRoundTrip`, `JsonLoads`, `JsonText`, `Utf8`, `Base64Url`, `CanonicalJson`, `Encodability`, `Hashing`, `Bundle`, `BundleItems`,
`Rigidity`, `KeyOrder` (text and digests); `Capability`, `Registry`, `Tools`, `Evidence`, `Executor`, `ExecutorAudit`, `EvidenceContents`, `Bridge` (gated
execution); `Waivers`, `TransitionGate` (risk decisions); `Options`, `Ordering`, `Runs`, `Decimals` (shared).

## Model

| member | source | states |
|---|---|---|
| `Lifecycle.TransitionsClimb` | apps/domain/internal/domain/service.go:39-61 | every allowed edge strictly raises a rank, ends at a known status and never leaves closed or cancelled; which edges there are is stated by `Lives.SerializedLives` and `Lives.EveryLifeOccurs` |
| `Lives.EdgesAreLifeSteps` | apps/domain/internal/domain/service.go:39-61 | from the end of a life the table has an edge to a status exactly when the life continues with it, where lives are the non-empty parts of created, triaged, in progress, resolved, closed, and the first one to three of these followed by cancelled |
| `Lifecycle.BuildPayload` | apps/domain/internal/domain/postgres.go:63-93 | an event serialises exactly when its type is supported, in the shape of its type, with every field of that shape taken from the event |
| `RequestStore.ListingUnique` | apps/domain/internal/domain/memory.go:63-89 | a listing query has one answer whatever order the map is walked in, of length min(limit, matches) |
| `RequestStore.MemoryStore.CreateRequestWithEvent` | apps/domain/internal/domain/memory.go:22-34 | commits row and event together or changes nothing; refuses a taken id |
| `RequestStore.MemoryStore.GetRequest` | apps/domain/internal/domain/memory.go:36-47 | finds exactly the stored row, or says not found, or fails |
| `RequestStore.MemoryStore.UpdateRequestStatusWithEvent` | apps/domain/internal/domain/memory.go:49-61 | replaces the whole record and logs the event together, or changes nothing |
| `RequestStore.MemoryStore.ListRequests` | apps/domain/internal/domain/memory.go:63-89 | returns the newest-first cut of the matching requests |
| `RequestService.TrimKeepsMiddle` | apps/domain/internal/domain/service.go:114-114 | trimming removes white space at both ends and nothing else |
| `RequestService.EffectiveLimit` | apps/domain/internal/domain/service.go:241-247 | the effective limit is always within 1..200 and a limit in that range is kept |
| `RequestService.Service.CreateRequest` | apps/domain/internal/domain/service.go:113-144 | succeeds exactly on a trimmed title of 1 to 200 characters, a description of at most 4000, a subject, a working store and a new id, and then commits that row with its creation event |
| `RequestService.Service.UpdateRequestStatus` | apps/domain/internal/domain/service.go:148-194 | uninterrupted, succeeds exactly for a named operator, a known status, a stored id and an edge of the lifecycle, and then changes that status alone and logs the change; otherwise changes nothing |
| `RequestService.Service.GetRequest` | apps/domain/internal/domain/service.go:197-220 | answers with the row, or with the error of the first failing check |
| `RequestService.Service.ListRequests` | apps/domain/internal/domain/service.go:223-262 | shows stored rows of the asked status and subject, the actor's own for a non-operator, newest first, leaving one out only when the limit (50 by default, at most 200) is reached by newer ones |
| `RequestService.ListMeans` | apps/domain/internal/domain/service.go:223-262 | a listing succeeds exactly for a named actor, a blank or known status and a working store, and shows those rows |
| `RequestService.GetNonInterference` | apps/domain/internal/domain/service.go:197-220 | stores that agree on a user's own requests give that user the same answer for every id |
| `RequestService.ListNonInterference` | apps/domain/internal/domain/service.go:222-262 | stores that agree on a user's own requests give that user the same listing for every filter |
| `RequestService.GetMatchesListing` | apps/domain/internal/domain/service.go:196-262 | an actor can get exactly the ids an unlimited unfiltered listing shows that actor |
| `StatusRaces.EveryInterleaving` | apps/domain/internal/domain/service.go:113-194 | for every interleaving of read and write halves: every event is a legal edge, each stored row has the status of its last event and the identity of its creation |
| `StatusRaces.IdentityIsForever` | apps/domain/internal/domain/service.go:148-194 | id, title, description, subject and creation time never change, along any run |
| `StatusRaces.StoresAgreeOnStep` | apps/domain/internal/domain/postgres.go:177-202 | after one action both stores agree exactly when its event id is new or nothing is committed |
| `StatusRaces.StoresAgree` | apps/domain/internal/domain/memory.go:49-61 | whole-record overwrite and status-only update stay equal over every interleaving with distinct event ids |
| `StatusRaces.PathsIffNoStaleWrite` | apps/domain/internal/domain/service.go:167-190 | the log is a contiguous legal path per request if and only if no update commits over a stale read |
| `StatusRaces.RaceRevivesCancelled` | apps/domain/internal/domain/service.go:167-190 | a concrete race in which a cancelled request becomes triaged |
| `StatusRaces.SerializedUpdateCommits` | apps/domain/internal/domain/service.go:148-194 | a serialized update has the effect the update method promises |
| `StatusRaces.SerializedHistories` | apps/domain/internal/domain/service.go:39-61 | served one at a time: one creation, a contiguous path to the stored status, at most four changes |
| `Lives.SerializedLives` | apps/domain/internal/domain/service.go:39-61 | in every serialized run the statuses a request went through are a life that ends at its stored status |
| `Lives.EveryLifeOccurs` | apps/domain/internal/domain/service.go:39-61 | every life is the history of some serialized run, on either store and for any id |
| `StatusRaces.TerminalIsForever` | apps/domain/internal/domain/service.go:44-45 | served one at a time, a closed or cancelled request never changes again |
| `Delivery.DomainStep` | apps/domain/internal/domain/postgres.go:95-120 | the outbox holds exactly the committed events under distinct ids, and grows by one row at a time |
| `Delivery.PublisherStep` | apps/publisher/internal/outbox/poller.go:48-68 | every step keeps: published messages are committed payloads on their routed subject, marked rows were published |
| `DeliveryAccounting.StepKeepsInv` | apps/worker/internal/consumer/handler.go:54-73 | every step of every component keeps the whole invariant |
| `DeliveryAccounting.AtMostOnce` | apps/worker/internal/consumer/handler.go:54-73 | for every run: no event is applied twice, and only committed request-created events are applied |
| `DeliveryAccounting.QuietAccounting` | apps/worker/internal/consumer/handler.go:65-72 | at quiescence the side effect was invoked for exactly the committed events that were not skipped |
| `DeliveryLoss.ExactlyOnce` | apps/worker/internal/consumer/handler.go:44-73 | at quiescence every committed request-created event was applied once and with success if and only if no step lost an event: no crash or failing side effect between insert and apply, and no new id inserted behind an error |
| `DeliveryLoss.LossStep` | apps/worker/internal/consumer/handler.go:65-72 | a step adds its event to the lost ones exactly when it is one of those steps |
| `DeliveryLoss.LossIsForever` | apps/worker/internal/consumer/handler.go:65-72 | a lost event is never applied with success afterwards |
| `DeliveryLoss.CrashLosesEvent` | apps/worker/internal/consumer/handler.go:65-72 | a concrete run that comes to rest with one committed event and nothing applied |
| `DeliveryLoss.FailureIsNotRetried` | apps/worker/internal/consumer/handler.go:69-72 | a concrete run that comes to rest with the only event applied without success |
| `DeliveryAccounting.SkippedIsForever` | apps/worker/internal/consumer/handler.go:65-72 | from any state that keeps the invariant, an event recorded but not applied is never applied afterwards |
| `DeliveryAccounting.PublishedAndMarked` | apps/publisher/internal/outbox/poller.go:48-68 | over every run: published messages come from rows, marked rows were published, no row is unroutable |
| `DeliveryOrder.PublishedInOrder` | apps/publisher/internal/outbox/postgres.go:18-39 | with one poller and commits in time order the whole broker stream is in time order, despite limits, failures and retries |
| `Publisher.SnapshotAnswers` | apps/publisher/internal/outbox/postgres.go:18-39 | the fetch returns an earliest-first cut of the unpublished rows, min(limit, pending) of them |
| `Publisher.Poller.constructor` | apps/publisher/internal/outbox/poller.go:38-43 | a non-positive limit becomes the default, so the limit is positive |
| `Publisher.Poller.FetchUnpublished` | apps/publisher/internal/outbox/postgres.go:18-39 | takes the snapshot of the rows that are unpublished at that moment |
| `Publisher.Poller.MarkPublished` | apps/publisher/internal/outbox/postgres.go:41-45 | marks the first record of the batch: on success its id is among the published rows, and the poller moves on only then |
| `Publisher.Poller.PublishBatch` | apps/publisher/internal/outbox/poller.go:48-68 | publishes and marks exactly a prefix of the fetched records, each of which ends up in the stream and among the published rows whatever others do; stops at the first failing call with at most one record in doubt, and never meets an unroutable event |
| `Draining.QuietBatchDrains` | apps/publisher/internal/outbox/poller.go:48-68 | a batch without failures removes min(limit, pending) rows and publishes each once |
| `Draining.DrainsInBatches` | apps/publisher/main.go:61-74 | n batches without failures empty the outbox exactly when pending <= n * limit, each row published once |
| `Worker.MemoryDedupe.MarkProcessed` | apps/worker/internal/consumer/memory.go:18-26 | inserts the id and says whether it was absent |
| `Worker.Consumer.MarkProcessed` | apps/worker/internal/consumer/postgres.go:18-26 | the insert-if-absent as one step: it answers whether the id was absent, on success the id is in the table, and a failure may still have inserted it |
| `Worker.Consumer.OnMessage` | apps/worker/internal/consumer/handler.go:54-73 | applies exactly when the payload is acceptable and its id was not in the table at its insert; acknowledges exactly when handling returned nil |
| `Traceability.Search` | control-plane/src/sdlc/traceability.py:93-122 | selects exactly the artifacts reachable over links in both directions, for every pop order, and terminates |
| `Traceability.LocalLinkTargets` | control-plane/src/sdlc/traceability.py:74-80 | the hrefs that end in .json, in order and with repeats |
| `Traceability.IncomingLinks` | control-plane/src/sdlc/traceability.py:95-100 | the reverse of the resolved links |
| `Traceability.TraceFeature` | control-plane/src/sdlc/traceability.py:83-146 | the report: sorted reachable nodes, present and missing types in chain order, sorted duplicate-free dangling links |
| `Traceability.TypesInChainOrder` | control-plane/src/sdlc/traceability.py:17-25 | present and missing types are subsequences of idea, specification, threat-model, plan, task, review, security-review; each position is in exactly one of them, in the first when that type is reachable |
| `Traceability.Rank` | control-plane/src/sdlc/traceability.py:149-151 | the position of the type in the chain, or its length for other types |
| `Traceability.TraceUnique` | control-plane/src/sdlc/traceability.py:124-146 | types, dangling links and the node set do not depend on the order of traversal |
| `Traceability.CompleteMeans` | control-plane/src/sdlc/traceability.py:48-50 | complete exactly when every lifecycle type is reachable and no reachable local link dangles |
| `Traceability.AddingKeepsNodes` | control-plane/src/sdlc/traceability.py:83-146 | adding an artifact at a new path never drops a node or adds a missing type |
| `Pipeline.FullChainIsComplete` | control-plane/src/sdlc/pipeline/orchestrator.py:160-244 | the seven recorded artifacts audit as COMPLETE on top of any earlier resolved ones |
| `Pipeline.FirstRunComplete` | control-plane/src/sdlc/pipeline/orchestrator.py:164-165 | a first run is COMPLETE exactly when its idea is an idea under an identifier no stage takes |
| `Pipeline.FirstRunRecords` | control-plane/src/sdlc/pipeline/orchestrator.py:33-41 | the identifiers, types, features and links of the seven artifacts of a first run |
| `Pipeline.StageNames` | control-plane/src/sdlc/pipeline/orchestrator.py:160-230 | the stages of a run, in order |
| `Pipeline.BuildSecurityReview` | control-plane/src/sdlc/pipeline/orchestrator.py:70-114 | one entry per risk, in order, with its id, severity, disposition and test; approved exactly when every serious risk has a test and every medium one a waiver |
| `Pipeline.AddLinks` | control-plane/src/sdlc/skills/base.py:48-58 | existing links are kept, and exactly the new hrefs are appended, once each |
| `Pipeline.Pipeline.ArtifactId` | control-plane/src/sdlc/pipeline/orchestrator.py:249-252 | draws the next identifier of the kind and advances that counter alone |
| `Pipeline.Pipeline.Persist` | control-plane/src/sdlc/pipeline/orchestrator.py:291-309 | records the document exactly when it validates and the write is allowed, with one decision and one evidence number |
| `Pipeline.Pipeline.Skill` | control-plane/src/sdlc/pipeline/orchestrator.py:262-289 | records the linked artifact of the stage, or nothing when a gate refuses |
| `Pipeline.Pipeline.Run` | control-plane/src/sdlc/pipeline/orchestrator.py:160-244 | a run that raises recorded exactly a prefix of the stages; one that returns recorded all seven and is COMPLETE; audit numbers advance in lockstep |
| `Pipeline.AuditIdsDiffer` | control-plane/src/sdlc/pipeline/orchestrator.py:254-260 | decision and evidence identifiers with different numbers differ |
| `JsonRoundTrip.MergeIsIdentity` | control-plane/src/sdlc/runner/capability.py:80-96 | a string survives ensure_ascii printing exactly when it splits no surrogate pair |
| `JsonRoundTrip.LoadsPrinted` | control-plane/src/sdlc/runner/capability.py:80-96 | json.loads of json.dumps returns the value, with split surrogate pairs joined under ensure_ascii |
| `JsonLoads.LoadedSurvives` | control-plane/src/sdlc/mcp/bootstrap.py:31-52 | whatever json.loads reads from Unicode text is read back unchanged after json.dumps in any style |
| `Utf8.EncodeInjective` | control-plane/src/sdlc/deploy_verify/candidate.py:32-32 | different texts have different encodings |
| `Utf8.EncodedExamples` | control-plane/src/sdlc/deploy_verify/candidate.py:32-32 | one code point of each encoded length |
| `Encodability.EncodableIffScalar` | control-plane/src/sdlc/deploy_verify/candidate.py:25-32 | encoding the sorted text raises exactly when some string in the value holds a surrogate |
| `CanonicalJson.SortedRoundTrip` | control-plane/src/sdlc/deploy_verify/candidate.py:25-27 | canonical text reads back as the value with sorted keys, which means the same |
| `CanonicalJson.CanonicalIffSameMeaning` | control-plane/src/sdlc/deploy_verify/candidate.py:25-27 | two values have the same canonical text exactly when they mean the same, objects taken as maps at every depth |
| `JsonText.CanonicalIsSolid` | control-plane/src/sdlc/deploy_verify/candidate.py:25-27 | canonical text holds no white space unless a key, string or numeral does |
| `JsonText.CanonicalExample` | control-plane/src/sdlc/deploy_verify/candidate.py:25-27 | canonical_json of a two-key object, character for character |
| `JsonText.ShortEscapes` | control-plane/src/sdlc/deploy_verify/candidate.py:27-27 | the seven two-character escapes |
| `JsonText.OtherEscapes` | control-plane/src/sdlc/deploy_verify/candidate.py:27-27 | control characters as four hexadecimal digits, printable ones as they are |
| `JsonText.EscapesBeyondAscii` | control-plane/src/sdlc/runner/capability.py:80-80 | beyond ASCII as four lower-case hexadecimal digits under ensure_ascii, as it is otherwise |
| `JsonText.EscapesBeyondThePlane` | control-plane/src/sdlc/runner/capability.py:80-80 | beyond the basic plane as a surrogate pair under ensure_ascii |
| `JsonText.TrailingTextIsRefused` | control-plane/src/sdlc/runner/capability.py:96-98 | a value followed by a separator or closing bracket is not JSON |
| `JsonText.MarginIsSkipped` | control-plane/src/sdlc/runner/capability.py:96-96 | the reader skips the four kinds of JSON white space before a value |
| `Bundle.DigestIffScalar` | control-plane/src/sdlc/deploy_verify/candidate.py:30-32 | a digest exists exactly when no string holds a surrogate |
| `Bundle.DigestIffSameMeaning` | control-plane/src/sdlc/deploy_verify/candidate.py:30-32 | without collisions, digests agree exactly when the values mean the same |
| `Bundle.CollectItems` | control-plane/src/sdlc/deploy_verify/bundle.py:19-39 | the three loops return the ordered items of the candidate, or raise when one of them must |
| `BundleItems.ItemsAre` | control-plane/src/sdlc/deploy_verify/bundle.py:19-39 | the items are those of the objects signature, sbom and provenance, then of the decisions, then of the approvals, each group in order, each with its kind, reference and digest |
| `Bundle.BundleCommits` | control-plane/src/sdlc/deploy_verify/bundle.py:42-76 | without collisions, bundle digests agree exactly when candidates mean the same and image and ordered items are equal |
| `KeyOrder.ItemsFollowMeaning` | control-plane/src/sdlc/deploy_verify/bundle.py:19-39 | when no quoted value holds an object with two or more keys, key order changes neither image nor items, whatever str() is |
| `KeyOrder.OrderFreeExactly` | control-plane/src/sdlc/deploy_verify/bundle.py:19-39 | no reordering of keys shows in image or items if and only if no quoted value holds an object with two or more keys |
| `KeyOrder.PrintingSeesOrder` | control-plane/src/sdlc/deploy_verify/candidate.py:27-27 | a rendering that tells key orders apart, as the previous row asks of str(), exists: compact printing |
| `KeyOrder.TextIsRigid` | contracts/schemas/release-candidate.schema.json:30-84 | candidates whose quoted fields are text, as the schema demands, meet that condition |
| `KeyOrder.BundleDigestIffSameCandidate` | control-plane/src/sdlc/deploy_verify/bundle.py:19-76 | under the same condition, bundle digests agree exactly when the candidates mean the same |
| `KeyOrder.KeyOrderShows` | control-plane/src/sdlc/deploy_verify/bundle.py:59-59 | two candidates that mean the same get different digests when the image is an object with two keys |
| `Rigidity.RigidIsFixed` | control-plane/src/sdlc/deploy_verify/candidate.py:25-27 | a value without an object of two or more keys is the only one with its meaning |
| `Rigidity.Reordered` | control-plane/src/sdlc/deploy_verify/candidate.py:25-27 | any other value has a different key order with the same meaning |
| `Base64Url.Base64RoundTrip` | control-plane/src/sdlc/runner/capability.py:58-64 | unpadded base64url decodes to the same bytes for every length |
| `Base64Url.OnlyLetters` | control-plane/src/sdlc/runner/capability.py:58-59 | encoded text holds only letters, digits, hyphen and underscore, hence no dot |
| `Base64Url.LettersAreTheAlphabet` | control-plane/src/sdlc/runner/capability.py:58-59 | the alphabet of section 5 of RFC 4648 |
| `Capability.PayloadSorts` | control-plane/src/sdlc/runner/capability.py:74-80 | sort_keys puts the claims in the order exp, run_id, scope, tool |
| `Capability.PayloadTextIs` | control-plane/src/sdlc/runner/capability.py:74-80 | the signed text, character for character: compact, ASCII, keys in order |
| `Capability.TokenTextIs` | control-plane/src/sdlc/runner/capability.py:81-83 | a token is v1, the encoded payload and the encoded MAC of both, joined by dots |
| `Capability.IssuedTokenDecodes` | control-plane/src/sdlc/runner/capability.py:72-113 | an issued token decodes to its claims, split surrogate pairs joined |
| `Capability.TokenRoundTrip` | control-plane/src/sdlc/runner/capability.py:72-113 | a token decodes to exactly its claims if and only if no claim splits a surrogate pair |
| `Capability.AcceptedIsSigned` | control-plane/src/sdlc/runner/capability.py:86-113 | every accepted token is its own payload followed by the MAC of that payload |
| `Capability.SignatureRefusedExactly` | control-plane/src/sdlc/runner/capability.py:89-94 | refused for its signature exactly when well shaped, ASCII and not the signed form of its payload |
| `Capability.DecodeRaisesExactly` | control-plane/src/sdlc/runner/capability.py:86-94 | decoding raises exactly on tokens of the right shape that hold a character beyond ASCII |
| `Capability.AccentedSignatureRaises` | control-plane/src/sdlc/runner/capability.py:93-93 | a literal token that makes decoding raise |
| `Registry.RunRegistry.DoStart` | control-plane/src/sdlc/runner/registry.py:48-55 | the run is live, replaces any record under its id, and no other run is affected |
| `Registry.RunRegistry.DoFinish` | control-plane/src/sdlc/runner/registry.py:60-64 | the run is no longer live, no other run is affected; unknown ids are reported |
| `Registry.RunRegistry.DoIssue` | control-plane/src/sdlc/runner/registry.py:66-85 | issues exactly for live runs a token of the given tool, scope and expiry |
| `Registry.RunRegistry.Check` | control-plane/src/sdlc/runner/registry.py:87-115 | answers with the first reason that applies to the run named in the token |
| `Registry.ValidMeans` | control-plane/src/sdlc/runner/registry.py:87-111 | valid exactly when genuine, of a live run, unexpired and for this tool and scope |
| `Registry.ReasonsExactly` | control-plane/src/sdlc/runner/registry.py:99-115 | each reason of a check from the claims, the table and the clock |
| `Registry.UndecodedReasons` | control-plane/src/sdlc/runner/registry.py:95-98 | a token that does not decode is refused with the decoder's reason |
| `Registry.LiveAfter` | control-plane/src/sdlc/runner/registry.py:48-64 | over every history a run is live exactly when its last start, or its earlier life, was not finished since |
| `Registry.ExpiredForever` | control-plane/src/sdlc/runner/registry.py:104-106 | an expired token is refused for ever, whatever happens to the runs |
| `Registry.RevokedUntilRestart` | control-plane/src/sdlc/runner/registry.py:102-103 | a token of a finished run is refused for that reason until the run is started again |
| `Registry.IssuedTokenValid` | control-plane/src/sdlc/runner/registry.py:66-111 | after any history an issued token is valid exactly for its tool and scope, up to and including its expiry second, while its run is live |
| `Registry.RestartRevives` | control-plane/src/sdlc/runner/registry.py:48-55 | restarting a finished run makes its unexpired tokens valid again |
| `Tools.ToolRegistry.Register` | control-plane/src/sdlc/tools/registry.py:48-53 | adds a tool exactly when its name is non-empty and new, and changes no other |
| `Evidence.EvidenceStore.Put` | control-plane/src/sdlc/evidence/store.py:18-22 | files the bytes under their digest and keeps everything put before filed under its own |
| `Evidence.EvidenceStore.Resolve` | control-plane/src/sdlc/evidence/store.py:30-34 | resolves a sha256 handle to what is stored, or says missing or unsupported |
| `Evidence.PutsAreRecoverable` | control-plane/src/sdlc/evidence/store.py:18-34 | without collisions every put is recovered byte for byte through its handle |
| `Evidence.ProcessToolOutput` | control-plane/src/sdlc/evidence/pipeline.py:28-67 | raises, storing nothing, exactly on sensitive or unencodable text; otherwise stores the original, the record's sha256 handle resolves to it, and compression is recorded exactly for untrusted text over 8192 bytes |
| `Executor.RunnerExecutor.Execute` | control-plane/src/sdlc/runner/executor.py:65-157 | the gates in order with early returns: the new state and outcome are those of the specified step |
| `Executor.RunnerExecutor.Record` | control-plane/src/sdlc/runner/executor.py:159-210 | stores one payload, whose contents `EvidenceContents.PayloadSays` states, and returns one result that refers to it, or raises and changes nothing |
| `ExecutorAudit.PassIffAuthorised` | control-plane/src/sdlc/runner/executor.py:94-133 | the gates pass exactly when policy, token, allowlist, scope and arguments all agree |
| `ExecutorAudit.HandlerRunsExactlyWhenAuthorised` | control-plane/src/sdlc/runner/executor.py:106-140 | in one call the handler runs at most once, with the call's arguments, exactly when the call is authorised |
| `ExecutorAudit.HistoryLogs` | control-plane/src/sdlc/runner/executor.py:65-157 | over any history the handler calls are, in order, those of exactly the authorised calls, and exactly the returning calls are on record |
| `ExecutorAudit.ReturnMeans` | control-plane/src/sdlc/runner/executor.py:141-210 | a returning call is allowed exactly when it succeeds and leaves one decision and one evidence record that references it |
| `ExecutorAudit.RefusedBecause` | control-plane/src/sdlc/runner/executor.py:111-145 | the reason of every refusal by capability, allowlist, scope, arguments, handler or result, by its code |
| `ExecutorAudit.AllowedSays` | control-plane/src/sdlc/runner/executor.py:157-157 | an allowed call says EXECUTED |
| `ExecutorAudit.RaisesExactly` | control-plane/src/sdlc/runner/executor.py:78-210 | the exact conditions under which a call raises |
| `ExecutorAudit.HandlerRunsUnrecorded` | control-plane/src/sdlc/runner/executor.py:135-157 | an authorised call with a surrogate in its arguments runs the tool and records nothing |
| `ExecutorAudit.EvidenceIsRecoverable` | control-plane/src/sdlc/runner/executor.py:182-210 | after any history every evidence record refers to its decision and resolves to the exact bytes of its payload |
| `ExecutorAudit.PayloadReadsBack` | control-plane/src/sdlc/runner/executor.py:194-199 | the stored payload parses back to the recorded value with sorted keys |
| `EvidenceContents.EvidenceSays` | control-plane/src/sdlc/runner/executor.py:182-210 | after any history the bytes a record resolves to parse to an object whose only keys are tool, args and detail: the call's tool, its arguments up to key order, and the reason of a refusal or the produced output |
| `EvidenceContents.PayloadSays` | control-plane/src/sdlc/runner/executor.py:194-199 | the same of the payload of one call |
| `EvidenceContents.RecordTextIs` | control-plane/src/sdlc/runner/executor.py:194-199 | the payload text, character for character: spaced, keys in order |
| `ExecutorAudit.ToolsAreForever` | control-plane/src/sdlc/tools/registry.py:48-53 | over any history a registered tool keeps its specification |
| `Bridge.InjectCapability` | control-plane/src/sdlc/mcp/bootstrap.py:23-52 | returns the line unchanged, the line with the missing capability fields, or raises when the run is not live |
| `Bridge.CallerFieldsKept` | control-plane/src/sdlc/mcp/bootstrap.py:49-51 | explicit fields are never overridden and nothing but the three fields is added |
| `Bridge.CompleteCallPasses` | control-plane/src/sdlc/mcp/bootstrap.py:40-41 | a call that brings all three capability fields passes untouched |
| `Bridge.BridgedCallReachesExecutor` | control-plane/src/sdlc/mcp/server.py:85-110 | any other call for a registered tool reaches the executor with the caller's tool and arguments, and for each capability field the caller's or else the bridge's; a field that is not non-empty text makes the server refuse it |
| `Bridge.BridgedCallIsGranted` | control-plane/src/sdlc/mcp/bootstrap.py:23-52 | while the run is live and 300 seconds have not passed, a call without its own token is refused for capability or scope only when it brings another scope; one without any capability field only by policy or arguments |
| `Bridge.BridgeText` | control-plane/src/sdlc/mcp/bootstrap.py:52-52 | the bridge prints spaced ASCII text |
| `Waivers.ValidateWaiver` | control-plane/src/sdlc/waiver/enforcement.py:87-122 | the reasons in order; none exactly when the waiver is sound |
| `Waivers.ProblemsExactly` | control-plane/src/sdlc/waiver/enforcement.py:96-120 | which reason stands for which fault, and the fixed order of the reasons |
| `Waivers.StateReasons` | control-plane/src/sdlc/waiver/enforcement.py:125-149 | what status and expiry add to the reasons |
| `Waivers.CheckWaiver` | control-plane/src/sdlc/waiver/enforcement.py:139-149 | valid exactly when the waiver is sound, active and unexpired |
| `Waivers.EvaluateRisk` | control-plane/src/sdlc/waiver/enforcement.py:152-179 | unblocks a medium finding exactly when some waiver for it is in force; otherwise the reasons are the first occurrences of all matching reasons, or the code of the severity |
| `Waivers.FromKeysFirst` | control-plane/src/sdlc/waiver/enforcement.py:179-179 | deduplication keeps each reason once, in the order of first occurrence |
| `Waivers.UnblockedIsMonotone` | control-plane/src/sdlc/waiver/enforcement.py:169-179 | more waivers never block more |
| `Waivers.OrderIsIrrelevant` | control-plane/src/sdlc/waiver/enforcement.py:169-179 | the order of waivers does not change the decision |
| `Waivers.UnblockedIsAntitone` | control-plane/src/sdlc/waiver/enforcement.py:125-136 | time only ever blocks |
| `Waivers.ReasonsIgnoreOrder` | control-plane/src/sdlc/waiver/enforcement.py:173-179 | the set of reasons does not depend on the order of waivers |
| `TransitionGate.MovesExactly` | policies/artifact_transition.rego:70-88 | the allowed moves are those of the tables, and any from a known status without a row |
| `TransitionGate.MovesListed` | policies/artifact_transition.rego:34-64 | from every status but superseded exactly the listed moves are allowed |
| `TransitionGate.UnboundExactly` | policies/artifact_transition.rego:34-64 | a status may move to every status of its type exactly when it is superseded |
| `TransitionGate.ApprovedOnlyFromReview` | policies/artifact_transition.rego:84-93 | a specification or threat model is approved only from review or superseded, never by an agent |
| `TransitionGate.PolicyAccepts` | policies/artifact_transition.rego:95-118 | findings unblocked in Python trigger neither BLOCKING_FINDING nor UNRESOLVED_MEDIUM when each medium one has a waiver in force whose instants fit 64-bit nanoseconds |
| `TransitionGate.PolicyAcceptsExactly` | policies/artifact_transition.rego:95-118 | for any findings unblocked in Python and any waivers, the policy agrees exactly when, for each medium finding, the clock and the expiry of some running waiver fit 64-bit nanoseconds |
| `TransitionGate.FarWaiverIsDenied` | policies/artifact_transition.rego:114-118 | a waiver to the end of 9999 unblocks in Python and is denied in Rego |
| `TransitionGate.PolicyIsWeaker` | policies/artifact_transition.rego:106-112 | the policy accepts a waiver an agent approved, which Python refuses |

## Left out

- gRPC and HTTP plumbing, OIDC, telemetry, containers and CI: no algorithmic content.
- SQL, pgx and NATS internals: atomic steps with unique keys, an ordered limited snapshot and at-least-once delivery; a database error is a failed step.
- Timestamps of the request platform are integers; RFC 3339 text in UTC sorts the same way. Malformed UUIDs as request ids, which PostgreSQL answers with an error, are not distinguished from failing store calls.
- Wire payloads of events are records: the bytes of Go's encoder, and undecodable messages, are not modelled.
- Order among outbox rows of equal time and among trace nodes of equal sort key: the code leaves it open, and so does the model.
- Publisher.Poller.PublishBatch: the retry ticker is the environment; nothing is claimed about when a batch runs.
- JSON Schema validation is a predicate that exposes only the facts the proofs use; the shapes of skill output are assumptions on that predicate.
- Pipeline.Pipeline.Skill: prompts, context assembly and model output are parameters, and only the platform-controlled fields of a document are modelled.
- Json: floats are kept as their numeral, so 1.50 and 1.5 differ; nesting depth and the 4300-digit limit on integers are not modelled.
- Capability: payload bytes in UTF-16, UTF-32 or with a byte order mark, which json.loads would detect, count as malformed.
- Registry: a run is a value in the table; code that keeps the returned Run object and changes it is not modelled.
- Evidence: resolving a handle that is a path rather than a digest, the compressed size and the bounded excerpt are not modelled.
- Executor: the resource shown to the policy, non-JSON arguments rendered with str(), and handlers that return something other than a mapping are not modelled.
- Bridge: server answers other than the executor call are modelled only by their kind.
- Bundle: artifact envelope fields and links, which are copied, are not modelled; Python's str() is an arbitrary function.
- TransitionGate: the sorted reason list of the decision is a set.
- TransitionGate.PolicyAccepts: from Python to the policy only, because the policy checks less; PolicyIsWeaker shows the converse fails.
- Waivers: fields that are not text, which Python renders with str(), are not modelled; an unparsable timestamp counts as missing.
- `vcs.py`, `commands.py`, path confinement in `builtin.py`, the deployment gate and Markdown rendering: they rest on external tools or would only add easy members.
