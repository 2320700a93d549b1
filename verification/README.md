# Atlas Argus: verified model

Atlas Argus keeps the evidence of legal matters: sources, claims drawn from
them, conflicts between claims, report sections that cite claims, and packets
produced from approved sections. This project models that evidence workflow as
one state machine over the rows of all matters, together with the parts that
feed it or stand beside it, and proves what the system is for:

- stored claim statuses, eligibilities and approval flags always agree with a
  full recomputation, although each operation updates only a few of them;
- an approval is bound to the evidence behind it and is never resurrected;
- a production packet discloses every preserved conflict it must, shows nothing
  that is withheld, and is current at the moment it is stored;
- hash chains, revision lineages and external checkpoints accept exactly what
  append-only operation produces;
- throttles and one-time codes keep their rates and their one-time use while
  stale rows are swept; extraction keeps its byte budgets; the browser store is
  not disturbed by late answers; no matter loses its last Senior counsel.

## How it is laid out

| files | role |
|---|---|
| `Basics`, `Domain`, `Chains`, `Lineage` | shared lists and ordering; the pure rules; hash chains; revision lineages |
| `Evidence`, `Approval`, `Steps` | rows and queries; the closure and digest loops; what each operation means |
| `Soundness`, `Preservation`, `Runs` | the invariant; every operation keeps it; theorems over whole runs |
| `EvidenceStore` | the operations as they assign rows in place, proved equal to their meaning |
| `Packet`, `PacketBuilder`, `Production`, `References`, `Body`, `Redaction` | the packet; its builder; disclosure; opaque references; the body; non-interference |
| `Indexes` | the two unique indexes, kept by every operation |
| `Visibility` | what a refusal tells a reviewer, in its words, about rows they may not see |
| `PacketGeneration`, `PacketServer`, `StoredProduction`, `PrivilegeLog`, `DecisionLog` | snapshot, unlocked render and commit among arbitrary other operations; what stored packets disclose, log and list |
| `Example` | one run from the empty store to a packet that discloses, withholds and logs: the theorems about packets are not empty |
| `Anchors`, `AnchorHistory` | checkpoints and their comparison |
| `Throttle`, `ThrottleRuns` | the throttle table and its runs |
| `Extraction`, `ExtractionPayload` | bounded extraction and the validator of its result |
| `Epochs`, `EpochRuns` | the browser store's references and every interleaving of answers |
| `Membership` | matter membership and accounts |

`dafny verify dfyconfig.toml` checks the whole project.

## Reading the model

- An operation is described twice. `Steps` gives its refusals and the state it
  leaves, with the claim caches rebuilt for *every* claim; the class
  `EvidenceStore` assigns rows as the service does, recomputing at most two
  claims, and is proved to reach the same state.
- A hash is a constructor over the previous hash, the row's identifier and its
  content, so it is injective and well founded; a stored hash column may also
  hold any foreign text. A content hash and the evidence digest are likewise
  injective images of what they cover.
- Identifiers are natural numbers that stand for the database's string keys in
  their sort order. Fresh identifiers, the clock and what the PDF library, the
  password hasher and the code generator answer are parameters.
- Each service operation is one atomic step with one reading of the clock.

## Where the code differs from what it says

- `ingestion.py:374-375` says a single bad page never raises. A page whose text
  holds a lone surrogate makes the encoder raise outside every handler and fails
  the document; `Extraction.DocumentFailsExactly` gives the exact condition.
- `integrity_anchors.py:34-48` raises an error, rather than reporting a
  mismatch, when the bytes of a source are missing:
  `Anchors.CompleteIffNoFileMissing`.
- `ingestion.py:492-502` has a code for raster timeouts that it never gives:
  `Extraction.RasterTimeoutNeverTold`.
- `ingestion.py:651-654` promises a strict validation. A page whose method is a
  list or an object, or whose text holds a lone surrogate, makes the validator
  break with another exception instead of refusing; the contract of
  `ExtractionPayload.ParseResultPayload` says exactly when.
- `services.py:2966-2979`, `:3213-3228` and `:3508-3520` make hidden evidence
  look missing, to the word. Flags keep to it (`Visibility.FlagRefusalTellsNothing`).
  Four answers do not, and `Visibility` says exactly when: a claim on a source of
  another matter (`ClaimRefusalTellsElsewhere`), a paragraph reference taken by a
  hidden section, whose title is printed (`SnapshotRefusalTellsTitles`), a
  decision on a hidden conflict or one of another matter
  (`MissingConflictIsToldApart`, `HiddenConflictShows`), and a revision or
  approval of a hidden section (`MissingSectionIsToldApart`). No other answer
  does (`RefusalsTellNothing`).
- `services.py:3264-3270` foresees the index on open conflicts when a conflict is
  flagged. A decision that reopens one of a pair while another is open meets the
  same index at `services.py:3384`, and nothing handles it: `PairReopened` in
  `Steps.DecideRefusal`.
- A sign-in that has only been sent does not yet supersede answers to the old
  session (`EpochRuns.PendingSignInSupersedesNothing`); the session that begins
  does.
- The check in `services.py:2320-2328` that counts active Senior accounts can
  never be the one that refuses (`Membership.CountGuardIsRedundant`).

## Model

| member | source | states |
|---|---|---|
| `Domain.AggregateStatus` | server/src/atlas_argus/domain/decisions.py:36-45 | the aggregate is one of the dispositions and none outranks it; with no conflict it is unreviewed |
| `Domain.TransitionsAreCoherent` | server/src/atlas_argus/domain/decisions.py:69-94 | every decision leaves a conflict status and two dispositions that tell one story, and only the selected side can be rejected |
| `Domain.ComputeEligibility` | server/src/atlas_argus/domain/eligibility.py:24-47 | exactly when a claim is privileged, excluded, blocked or eligible, whatever the order of the rules |
| `Domain.SectionImpact` | server/src/atlas_argus/domain/report.py:30-97 | a section is usable iff every cited claim is eligible; blocked iff one is blocked; privileged iff one is and none is blocked |
| `Domain.EvaluateQuote` | server/src/atlas_argus/domain/quotes.py:89-133 | a quote is exact only when found on a trusted page, and refused only when a complete, readable page lacks it |
| `Chains.VerifyChain` | server/src/atlas_argus/services.py:960-999 | the walk reports exactly the rows that break the chain, and returns the last stored hash as root |
| `Chains.AppendStaysLinked` | server/src/atlas_argus/services.py:298-318 | appending the next row to a verified chain keeps it verified |
| `Chains.SameRootSameHistory` | server/src/atlas_argus/integrity.py:23-30 | two verified row sequences with one root are the same history |
| `Chains.HashPinsPrefix` | server/src/atlas_argus/integrity.py:23-30 | one stored hash fixes its position and every row before it |
| `Chains.TamperingShows` | server/src/atlas_argus/services.py:960-999 | any edit, reorder, insertion or interior deletion is reported or moves the root |
| `Chains.TruncationVerifiesWithAnotherRoot` | server/src/atlas_argus/services.py:960-999 | cutting rows off the end verifies, but under another root |
| `Evidence.StatusIsMostDecisive` | server/src/atlas_argus/services.py:218-228 | a recomputed status is a disposition of one of the claim's conflicts and none of its conflicts outranks it |
| `Evidence.RecomputedFrame` | server/src/atlas_argus/services.py:205-228 | both claim caches depend on the claim's own conflicts alone |
| `Lineage.VerifyRevisions` | server/src/atlas_argus/services.py:1135-1268 | the verifier accepts iff every section is sound, and its root is the set of section tips |
| `Lineage.VerifySection` | server/src/atlas_argus/services.py:1145-1228 | no issue is found iff there is one root, no fork, and every row names a present parent and chains its hash |
| `Lineage.SoundSectionIsOneLine` | server/src/atlas_argus/services.py:1135-1268 | a section without issues is one linear path from its root covering all rows: no detached cycle |
| `Lineage.OneLineIsSound` | server/src/atlas_argus/services.py:1135-1268 | conversely every such path verifies, in whatever order its rows are listed |
| `Lineage.VerdictIgnoresOrder` | server/src/atlas_argus/services.py:1139-1141 | the verdict depends on the set of rows, not on their order |
| `Lineage.AppendExtendsLine` | server/src/atlas_argus/services.py:901-957 | an append to the active revision extends the line |
| `Approval.ProductionEvidenceClaimIds` | server/src/atlas_argus/approval.py:14-37 | the querying loop terminates with the closure list |
| `Approval.EvidenceClaimIdsFromConflicts` | server/src/atlas_argus/approval.py:40-59 | the in-memory loop terminates with the same list |
| `Approval.BothLoopsAgree` | server/src/atlas_argus/approval.py:14-59 | the two loops expand the same edges for one table, however its rows are listed |
| `Approval.ClosureByDistance` | server/src/atlas_argus/approval.py:16-37 | the list is the deduplicated citations, then the reachable claims by distance and by id |
| `Approval.EmptyRingIsLast` | server/src/atlas_argus/approval.py:19-37 | when a turn discovers nothing, nothing further is ever reached |
| `Approval.ClosureIsLeast` | server/src/atlas_argus/approval.py:14-59 | the list has no repetition and is the least set closed under preserved conflicts |
| `Approval.ClosureHoldsBothEnds` | server/src/atlas_argus/approval.py:20-34 | both ends of a preserved conflict enter the closure together |
| `Approval.ConflictsByClaim` | server/src/atlas_argus/approval.py:73-76 | grouping by ascending id gives each claim exactly its conflicts, in order |
| `Approval.EvidenceDigestFromLoaded` | server/src/atlas_argus/approval.py:62-143 | the digest loops over a snapshot yield the digest of its tables |
| `Approval.EvidenceStateDigest` | server/src/atlas_argus/approval.py:146-188 | the digest from the narrow fetch is the digest of the whole state |
| `Approval.NarrowFetchSuffices` | server/src/atlas_argus/approval.py:154-181 | fetching only evidence claims, their sources and their incident conflicts changes nothing |
| `Approval.DigestFrame` | server/src/atlas_argus/approval.py:62-143 | the digest depends only on evidence claims, their sources and the conflicts touching them |
| `Soundness.DigestElsewhere` | server/src/atlas_argus/services.py:281-297 | a step in one matter moves no digest of another |
| `Soundness.AuditedSound` | server/src/atlas_argus/services.py:263-321 | an audit append keeps the invariant and withdraws approvals |
| `Preservation.SourceIngestKeeps` | server/src/atlas_argus/services.py:2589-2744 | ingesting a source keeps the invariant (caches, approvals, lines, chains), stays in its matter, only advances rows and grows the audit chain |
| `Preservation.ClaimExtractKeeps` | server/src/atlas_argus/services.py:2940-3027 | extracting a claim keeps the invariant (caches, approvals, lines, chains), stays in its matter, only advances rows and grows the audit chain |
| `Preservation.FlaggedKeeps` | server/src/atlas_argus/services.py:3193-3315 | flagging a conflict keeps the invariant (caches, approvals, lines, chains), stays in its matter, only advances rows and grows the audit chain |
| `Preservation.DecidedKeeps` | server/src/atlas_argus/services.py:3318-3463 | deciding a conflict keeps the invariant (caches, approvals, lines, chains), stays in its matter, only advances rows and grows the audit chain |
| `Preservation.AttestedKeeps` | server/src/atlas_argus/services.py:3081-3174 | attesting a quote keeps the invariant (caches, approvals, lines, chains), stays in its matter, only advances rows and grows the audit chain |
| `Preservation.DraftedKeeps` | server/src/atlas_argus/services.py:3576-3614 | drafting a section keeps the invariant (caches, approvals, lines, chains), stays in its matter, only advances rows and grows the audit chain |
| `Preservation.RevisedSectionKeeps` | server/src/atlas_argus/services.py:3536-3575 | revising a section keeps the invariant (caches, approvals, lines, chains), stays in its matter, only advances rows and grows the audit chain |
| `Preservation.ApprovedKeeps` | server/src/atlas_argus/services.py:3622-3681 | approving a section keeps the invariant (caches, approvals, lines, chains), stays in its matter, only advances rows and grows the audit chain |
| `Preservation.ExportedKeeps` | server/src/atlas_argus/services.py:3879-3893 | recording an export keeps the invariant (caches, approvals, lines, chains), stays in its matter, only advances rows and grows the audit chain |
| `Preservation.UntouchedCacheStands` | server/src/atlas_argus/services.py:3378-3392 | writing one conflict leaves the caches of every claim it does not touch |
| `Runs.EveryStateIsValid` | server/src/atlas_argus/services.py:205-321 | every state of every run satisfies the whole invariant |
| `Runs.RunAdvances` | server/src/atlas_argus/services.py:263-321 | over a run nothing is deleted, versions never fall and logs only grow |
| `Runs.StoredCachesAreGlobal` | server/src/atlas_argus/services.py:205-228 | in every reachable state stored status and eligibility equal a full recomputation, though each step recomputes at most two claims |
| `Runs.StatusHasReason` | server/src/atlas_argus/services.py:218-228 | every stored claim status has its reason in a conflict decided that way |
| `Runs.ApprovalFlagNeverLies` | server/src/atlas_argus/services.py:3648-3666 | a raised flag implies an approved active revision, equal to the section row, whose digest is recomputed today |
| `Runs.ApprovalNeverResurrected` | server/src/atlas_argus/approval.py:71-143 | once bound evidence has moved on, no later state of any run yields the approved digest, for any citations |
| `Runs.DecidingMovesOn` | server/src/atlas_argus/services.py:3377-3384 | deciding a bound conflict again moves the evidence on |
| `Runs.FlaggingMovesOn` | server/src/atlas_argus/services.py:3249-3264 | so does flagging a conflict on an evidence claim |
| `Runs.AttestingMovesOn` | server/src/atlas_argus/services.py:3133-3144 | so does attesting an evidence claim's quote |
| `Visibility.ClaimRefusalTellsElsewhere` | server/src/atlas_argus/services.py:2963-2979 | on stores that differ only in rows the reviewer may not see, a new claim gets the same words iff its source is stored under another matter in both or in neither: hidden in the matter is as good as missing |
| `Visibility.SourceOfAnotherMatterIsTold` | server/src/atlas_argus/services.py:2966-2969 | an input where hidden and missing differ: source 7 of matter 9, asked for by a reviewer of matter 0 alone |
| `Visibility.FlagRefusalTellsNothing` | server/src/atlas_argus/services.py:3213-3248 | on such stores a flag always gets the same words, hidden claims of any matter and the named open conflict included |
| `Visibility.SnapshotRefusalTellsTitles` | server/src/atlas_argus/domain/report_sections.py:33-52 | on such stores a section's refusal has the same words iff the paragraph reference is untaken in both or taken under the same title; hidden citations tell nothing |
| `Visibility.HiddenTitleIsTold` | server/src/atlas_argus/domain/report_sections.py:37-39 | an input where a hidden section's title is told |
| `Visibility.HiddenConflictShows` | server/src/atlas_argus/services.py:3329-3362 | a decision on a hidden conflict of the matter is told its version if it named another, and otherwise refused in words that no missing conflict gets |
| `Visibility.MissingConflictIsToldApart` | server/src/atlas_argus/services.py:3329-3336 | a decision is answered as if its conflict were missing iff it is stored nowhere |
| `Visibility.MissingSectionIsToldApart` | server/src/atlas_argus/services.py:3481-3488 | a revision or an approval is answered as if its section were missing iff it is stored nowhere |
| `Visibility.RefusalsTellNothing` | server/src/atlas_argus/services.py:887-898 | those are all: a command that meets none of these is answered in the same words by any two such stores |
| `Indexes.NextKeepsIndexes` | server/src/atlas_argus/services.py:3234-3270 | no operation leaves a pair of claims with two open conflicts, or two sections of a matter under one paragraph reference |
| `Indexes.IndexesAlwaysHold` | server/src/atlas_argus/db/migrations/versions/0008_audit_identity_and_versions.py:53-63 | so both unique indexes hold in every state of every run |
| `Indexes.NamedIsUnique` | server/src/atlas_argus/domain/report_sections.py:36-39 | a refusal that names the open conflict of a pair, or the section under a reference, has one to name |
| `EvidenceStores.EvidenceStore.AppendAudit` | server/src/atlas_argus/services.py:263-321 | withdraws the approvals the event invalidates and chains the event |
| `EvidenceStores.EvidenceStore.RecomputeClaimStatus` | server/src/atlas_argus/services.py:218-228 | rewrites one claim to its recomputation from the conflict table |
| `EvidenceStores.EvidenceStore.AppendSectionRevision` | server/src/atlas_argus/services.py:901-957 | appends a revision under the active one and makes it active |
| `EvidenceStores.EvidenceStore.CreateSource` | server/src/atlas_argus/services.py:2589-2744 | stores the source with its document, its one extraction run and the pages, activates the run and audits it; or nothing |
| `EvidenceStores.EvidenceStore.CreateClaim` | server/src/atlas_argus/services.py:2940-3027 | does what the claim step means: privilege inherited, quote evaluated, caches set; or nothing |
| `EvidenceStores.EvidenceStore.FlagConflict` | server/src/atlas_argus/services.py:3193-3315 | recomputing two claims in place leaves the globally recomputed state, or nothing; an open pair is refused |
| `EvidenceStores.EvidenceStore.ApplyDecision` | server/src/atlas_argus/services.py:3318-3463 | the same for a decision, with its decision row and its audit events |
| `EvidenceStores.EvidenceStore.AttestQuote` | server/src/atlas_argus/services.py:3081-3174 | does what the attestation means, or nothing; the claim's author is refused |
| `EvidenceStores.EvidenceStore.DraftSection` | server/src/atlas_argus/services.py:3492-3614 | does what drafting means, or nothing |
| `EvidenceStores.EvidenceStore.ReviseSection` | server/src/atlas_argus/services.py:3478-3575 | does what revising means, or nothing; a stale version is refused |
| `EvidenceStores.EvidenceStore.ApproveSection` | server/src/atlas_argus/services.py:3622-3681 | binds the evidence digest to a new approved revision, or nothing |
| `EvidenceStores.LocalIsGlobal` | server/src/atlas_argus/services.py:3378-3396 | recomputing the two claims of the written conflict is recomputing them all |
| `PacketBuilder.OpaqueRefs.PacketClaim` | server/src/atlas_argus/packet.py:152-160 | one view per claim, numbered by first appearance and reused |
| `PacketBuilder.OpaqueRefs.SectionRef` | server/src/atlas_argus/packet.py:144-150 | a withheld section takes the next number |
| `PacketBuilder.CollectDisclosed` | server/src/atlas_argus/packet.py:223-244 | the walk lists the preserved conflicts it meets once each, in order |
| `PacketBuilder.PlanSection` | server/src/atlas_argus/packet.py:163-244 | one section's treatment and disclosures |
| `PacketBuilder.BuildEntries` | server/src/atlas_argus/packet.py:162-281 | all manifest entries under one numbering |
| `PacketBuilder.CiteEntries` | server/src/atlas_argus/packet.py:283-295 | the cited claims of included entries, by id |
| `PacketBuilder.PrivilegeLog.LogEntries` | server/src/atlas_argus/packet.py:304-329 | the log lines of all entries, one document at a time |
| `PacketBuilder.BuildPacket` | server/src/atlas_argus/packet.py:117-361 | the builder returns exactly the packet defined from the evidence tables, an internal one with its decision log |
| `Production.ImpactReadsDigest` | server/src/atlas_argus/services.py:3648-3656 | a section is approvable iff the digest taken is of an eligible closure |
| `Production.EveryApprovalIsClean` | server/src/atlas_argus/services.py:3622-3681 | in every run each approved revision is bound to an eligible closure |
| `Production.ProductionFollowsApproval` | server/src/atlas_argus/packet.py:178-221 | production includes exactly the sections whose flag is raised and withholds exactly those that cite withheld claims |
| `Production.DisclosureIsComplete` | server/src/atlas_argus/packet.py:163-244 | an included section rests on an eligible closure and lists once each every preserved conflict with a showable party, both ends in the closure |
| `Production.EveryProductionIsComplete` | server/src/atlas_argus/packet.py:163-244 | in every state of every run: included iff flagged, on an eligible closure, every preserved conflict with a showable party listed once, both its ends in the closure |
| `References.MentionsAreNumbered` | server/src/atlas_argus/packet.py:140-160 | a number appears for a thing iff it is that thing's place in first-appearance order |
| `References.ReferencesIdentify` | server/src/atlas_argus/packet.py:140-160 | opaque references are stable and injective |
| `References.NoNumberIsSkipped` | server/src/atlas_argus/packet.py:144-160 | every number from 1 up is used |
| `References.LogIsExact` | server/src/atlas_argus/packet.py:304-329 | the log lists a reference under a source iff the artifact prints it for something that comes from that source |
| `PrivilegeLogs.NumberedStandsForSource` | server/src/atlas_argus/packet.py:304-329 | whatever is numbered comes from at least one stored source, a section through a withheld claim it cites |
| `PrivilegeLogs.EveryReferenceIsLogged` | server/src/atlas_argus/packet.py:304-329 | a reference is printed in the artifact iff the privilege log lists it under some source |
| `PrivilegeLogs.EveryReferenceOfARunIsLogged` | server/src/atlas_argus/packet.py:304-329 | the same in every state of every run |
| `PrivilegeLogs.EveryStoredReferenceIsLogged` | server/src/atlas_argus/services.py:3740-3791 | the same of the manifest of every stored production packet, whatever ran before its commit |
| `References.LogRepeatsNothing` | server/src/atlas_argus/packet.py:306-315 | one line per document, no reference twice on it |
| `References.NothingWithheldIsCited` | server/src/atlas_argus/packet.py:283-302 | no withheld claim or privileged source reaches the appendices; every logged document is privileged |
| `Redaction.PacketAlike` | server/src/atlas_argus/packet.py:117-361 | stores alike to a reader of the matter give the same packet |
| `Redaction.BodyAlike` | server/src/atlas_argus/packet.py:375-580 | and the same rendered body |
| `Redaction.RedactionIsNonInterference` | server/src/atlas_argus/packet.py:375-580 | reachable stores that differ only in withheld text, withheld source details, summaries with a withheld side, assessments and the words of sections production does not print give the same production packet and body, given equal verdicts |
| `PacketGeneration.PacketOfMatter` | server/src/atlas_argus/packet.py:117-361 | a packet and its body depend on their own matter alone |
| `PacketGeneration.CommitIsCurrent` | server/src/atlas_argus/services.py:3785-3791 | an unchanged audit root means the snapshot is what would be built now |
| `PacketGeneration.TurnKeeps` | server/src/atlas_argus/services.py:3684-3893 | every phase of every job, interleaved with any operation, keeps the system invariant |
| `PacketGeneration.StoredPacketIsCurrent` | server/src/atlas_argus/services.py:3740-3791 | for every interleaving a stored packet and body, decision log included, equal those of the evidence at commit |
| `PacketGeneration.KeyReplaysForever` | server/src/atlas_argus/services.py:3711-3738 | a used idempotency key answers with the one stored artifact ever after, and refuses another kind |
| `PacketGeneration.ArtifactsAlwaysVerify` | server/src/atlas_argus/services.py:3792-3893 | artifact chains verify, keys are unique, and each artifact is bound to its own export event |
| `StoredProduction.StoredProductionIsComplete` | server/src/atlas_argus/services.py:3740-3791 | every included entry of every stored production packet is of a section approved at the commit, rests on an eligible closure and discloses once each all it must, both ends in the closure, whatever ran in between |
| `DecisionLogs.EveryDecisionIsListed` | server/src/atlas_argus/packet.py:331-342 | in every state of every run the internal packet lists every decision of its matter once, the latest first, and the production packet none |
| `DecisionLogs.StoredLogIsFull` | server/src/atlas_argus/services.py:3740-3791 | a stored internal packet lists every decision made in its matter up to its commit, whatever ran in between |
| `PacketServers.PacketServer.Replay` | server/src/atlas_argus/services.py:3720-3735 | the stored artifact of a key, or a refusal, or none |
| `PacketServers.PacketServer.Begin` | server/src/atlas_argus/services.py:3704-3766 | the first phase: permission, replay, size limit, snapshot |
| `PacketServers.PacketServer.Commit` | server/src/atlas_argus/services.py:3785-3893 | the last phase: replay, root recheck, artifact and export event |
| `Anchors.CheckpointFromVerification` | server/src/atlas_argus/integrity_anchors.py:27-55 | the checkpoint of the five chains, or an error when a member proof is incomplete |
| `Anchors.CompleteIffNoFileMissing` | server/src/atlas_argus/integrity_anchors.py:34-48 | a checkpoint can be taken iff no stored document is missing |
| `Anchors.OneMissingFileStopsTheCheckpoint` | server/src/atlas_argus/integrity_anchors.py:34-48 | a history of which no checkpoint can be taken: one source, its document gone |
| `Anchors.VerifyAnchor` | server/src/atlas_argus/integrity_anchors.py:155-237 | rollback before mismatch before advance, and ok iff every chain is accepted |
| `AnchorHistory.AcceptsExactlyContinuations` | server/src/atlas_argus/integrity_anchors.py:160-215 | between verified histories the comparison accepts exactly the append-only continuations |
| `AnchorHistory.SectionsAccepted` | server/src/atlas_argus/integrity_anchors.py:195-213 | section set extension at equal counts forces equal roots |
| `AnchorHistory.ExtractionsAccepted` | server/src/atlas_argus/integrity_anchors.py:184-213 | extraction set extension at equal counts forces equal roots |
| `AnchorHistory.AcceptanceIsTransitive` | server/src/atlas_argus/integrity_anchors.py:160-215 | acceptance is transitive across checkpoints |
| `AnchorHistory.ReachableHistoryVerifies` | server/src/atlas_argus/services.py:1288-1348 | in a reachable system every chain verifies iff no document of the matter is missing |
| `AnchorHistory.ExtractionsOnlyGrow` | server/src/atlas_argus/services.py:2634-2717 | the document, run and page tables of a matter only ever gain rows |
| `AnchorHistory.EverySystemKeepsFiles` | server/src/atlas_argus/services.py:2634-2717 | in every system of every run the document of each extraction run is stored |
| `AnchorHistory.EveryRunIsAccepted` | server/src/atlas_argus/integrity_anchors.py:155-237 | a checkpoint taken anywhere in a run is accepted everywhere later, with all five chains read off the states of the run |
| `Throttles.KeysNeverCollide` | server/src/atlas_argus/auth.py:224-233 | no username, source or reviewer id can name another's throttle row |
| `Throttles.MatchingCounter` | server/src/atlas_argus/auth.py:161-173 | a code matches iff one of the three neighbouring steps yields it, and the earliest is taken |
| `Throttles.FindMatchingCounter` | server/src/atlas_argus/auth.py:161-173 | the drift loop finds the earliest matching time step (section 4 of RFC 6238) |
| `Throttles.ThrottleStore.SweepStale` | server/src/atlas_argus/auth.py:284-294 | deletes exactly the stale, unlocked rows |
| `Throttles.ThrottleStore.RecordLoginFailure` | server/src/atlas_argus/auth.py:236-245 | counts a failure and locks from the fifth on |
| `Throttles.ThrottleStore.ConsumeSourceAdmission` | server/src/atlas_argus/auth.py:248-268 | admits or refuses a source and moves its window |
| `Throttles.ThrottleStore.Login` | server/src/atlas_argus/auth.py:297-347 | the whole sign-in: sweep, source admission, username lock, outcome |
| `Throttles.ThrottleStore.VerifyMfaAttempt` | server/src/atlas_argus/auth.py:404-453 | locks, consumes a code once, or counts a failure |
| `ThrottleRuns.CodeAcceptedOnce` | server/src/atlas_argus/auth.py:427-444 | over any run each reviewer and counter is accepted at most once, sweeps included (section 5.2 of RFC 6238) |
| `ThrottleRuns.SourceRateBound` | server/src/atlas_argus/auth.py:248-268 | one source gets at most 30 * (L / 60 + 2) sign-ins admitted in L seconds |
| `ThrottleRuns.WindowAdmitsThirty` | server/src/atlas_argus/auth.py:248-268 | of one source's attempts in a window exactly the first thirty are admitted |
| `ThrottleRuns.WrongCodeBound` | server/src/atlas_argus/auth.py:416-453 | one reviewer gets at most 5 * (L / 60 + 1) wrong codes evaluated in L seconds without success or reset |
| `ThrottleRuns.WrongPasswordBound` | server/src/atlas_argus/auth.py:236-245 | one username gets at most 5 + L / 60 wrong passwords checked in L seconds without a sign-in |
| `Extraction.TruncationIsTight` | server/src/atlas_argus/ingestion.py:295-300 | the kept text is the longest code-point prefix that fits and wastes fewer than four bytes (section 3 of RFC 3629) |
| `Extraction.ExtractPages` | server/src/atlas_argus/ingestion.py:414-529 | the page loop with its two budgets |
| `Extraction.ExtractionWithinBudgets` | server/src/atlas_argus/ingestion.py:303-318 | rows are numbered from 1 and every text is a tight prefix under both budgets |
| `Extraction.ExhaustionIsFinal` | server/src/atlas_argus/ingestion.py:420-432 | a row is budget-exhausted iff the budget is spent, and then so are all later ones |
| `Extraction.DocumentFailsExactly` | server/src/atlas_argus/ingestion.py:295-300 | a document fails iff some page offers a lone surrogate while the bytes the pages before it would spend leave budget over |
| `Extraction.OneSurrogateFailsTheDocument` | server/src/atlas_argus/ingestion.py:373-375 | an input for which the promise that one bad page never raises is false |
| `ExtractionPayload.ParseResultPayload` | server/src/atlas_argus/ingestion.py:651-720 | the validator returns the result of exactly the well-formed payloads, breaks on exactly those whose first bad page has an unhashable method or an unencodable text, and refuses the rest |
| `ExtractionPayload.AcceptedIsBounded` | server/src/atlas_argus/ingestion.py:664-720 | whatever is accepted is numbered, within both budgets and within all length limits |
| `ExtractionPayload.PayloadRoundTrip` | server/src/atlas_argus/ingestion.py:591-611 | the payload of a result reads back as that result iff no version, language list or detail is over-long |
| `ExtractionPayload.AcceptedReadsBack` | server/src/atlas_argus/ingestion.py:651-720 | an accepted result is written and accepted unchanged |
| `ExtractionPayload.ChildResultRoundTrips` | server/src/atlas_argus/ingestion.py:590-611 | every document the child extracts is accepted, and reads back as itself iff the parser's and the OCR engine's version have at most 100 characters each |
| `ExtractionPayload.LongVersionIsCut` | server/src/atlas_argus/ingestion.py:712-719 | a document whose result is cut: one empty page, a parser version of 101 characters |
| `Extraction.RasterTimeoutNeverTold` | server/src/atlas_argus/ingestion.py:492-502 | the code for a raster timeout is never given: the branch before it takes every exception of that name |
| `Epochs.StoreProvider.Handle` | src/state/store.tsx:657-1195 | one turn of the event loop over the epoch references |
| `Epochs.StoreProvider.LoadCase` | src/state/store.tsx:767-799 | a load takes a new matter epoch before it waits |
| `Epochs.StoreProvider.ClearServerSession` | src/state/store.tsx:672-679 | every epoch advances and the screen is scrubbed |
| `EpochRuns.EpochsCountShifts` | src/state/store.tsx:664-742 | epochs count exactly the turns that begin or end a session or request a matter |
| `EpochRuns.EpochFixesMatter` | src/state/store.tsx:695-742 | equal matter epochs mean the same session and matter: no A-B-A |
| `EpochRuns.CurrentMeansQuiet` | src/state/store.tsx:695-728 | a matter operation is current iff no session began or ended and no matter was requested since it started |
| `EpochRuns.LateAnswerIsInert` | src/state/store.tsx:767-799 | whatever a superseded operation is answered, a late 401 included, nothing else changes |
| `EpochRuns.LoadAppliesExactly` | src/state/store.tsx:767-799 | a matter load is applied iff nothing superseded it |
| `EpochRuns.LatestLoadWins` | src/state/store.tsx:767-799 | the latest load wins, in whatever order answers come |
| `EpochRuns.AttemptsCount` | src/state/store.tsx:657-680 | attempts count exactly the boots, the sign-ins sent while no sign-out is in flight and the ended sessions, and a new wait carries the latest |
| `EpochRuns.AttemptMeansLatest` | src/state/store.tsx:815-840 | a waiting boot or sign-in is the latest attempt iff none of those happened since it was sent |
| `EpochRuns.LateAuthenticationIsInert` | src/state/store.tsx:970-1001 | over any run, whatever answers a superseded authentication only removes its own waiting entry |
| `EpochRuns.AuthenticationAppliesExactly` | src/state/store.tsx:970-1001 | a session answer begins a session, its reviewer's, iff nothing superseded it |
| `EpochRuns.LateSignOutSparesSession` | src/state/store.tsx:1083-1103 | a sign-out answer never clears a session begun since |
| `EpochRuns.PendingSignInSupersedesNothing` | src/state/store.tsx:970-981 | a sign-in merely sent leaves answers to the old session effective |
| `EpochRuns.SignedOutShowsNothing` | src/state/store.tsx:222-240 | nobody signed in: no server matter on screen |
| `EpochRuns.WritesLandInTheirMatter` | src/state/store.tsx:711-728 | a write's answer lands only on the matter it was written to |
| `Membership.Administration.SetCaseMember` | server/src/atlas_argus/services.py:2109-2210 | sets a member or refuses; the matter has a leader afterwards |
| `Membership.Administration.DeactivateCaseMember` | server/src/atlas_argus/services.py:2213-2235 | refuses exactly as specified, or deactivates with the role kept and a leader left |
| `Membership.RemovalGuardIsExact` | server/src/atlas_argus/services.py:2213-2235 | a removal of a member in good standing is refused iff it would leave the matter without a leader |
| `Membership.Administration.SetReviewerActive` | server/src/atlas_argus/services.py:2288-2385 | the account loop refuses exactly as specified |
| `Membership.SeatGuardIsExact` | server/src/atlas_argus/services.py:2153-2176 | the seniority check refuses a change iff it would leave the matter without a leader |
| `Membership.DeactivationGuardIsExact` | server/src/atlas_argus/services.py:2330-2362 | a deactivation is refused for a matter's sake iff it would take some matter's last leader |
| `Membership.CountGuardIsRedundant` | server/src/atlas_argus/services.py:2320-2328 | the count check can never be what refuses |
| `Membership.NextKeepsSeatsBacked` | server/src/atlas_argus/services.py:2149-2152 | only a globally Senior account ever holds a matter's Senior seat |
| `Membership.LeadersRemain` | server/src/atlas_argus/services.py:2119-2176 | over any sequence of operations a matter and the firm keep an active Senior once they have one |
| `Membership.NoMatterEverLeaderless` | server/src/atlas_argus/services.py:2295-2370 | if every matter starts with a leader, every matter, opened ones included, always has one |

## Left out

- HTTP routes, schemas, configuration, migrations, React components, PDF and CSS rendering, process and file handling.
- SHA-256, HMAC signatures, Argon2, JSON text, Unicode normalisation and the quote matcher: whether a quote was found on its page is an input of the claim step.
- Domain.EvaluateQuote: does not specify the matcher's own answer; whether the quote appears on the page is an input.
- EvidenceStores.EvidenceStore.CreateClaim: does not specify the matcher's own answer either.
- EvidenceStores.EvidenceStore.CreateSource: upload limits, advice on duplicates and idempotent replay are not modelled; the extraction arrives with the upload.
- PacketBuilder.BuildPacket: the case header and impact notes are not part of the packet; decisions of one instant are listed in the order they were made, which the query leaves open.
- Redaction.BodyAlike: the body has no header, generation line, captions or note texts.
- PacketServers.PacketServer.Begin: the document byte limit and the rendering inside the cited span appear only as an abandoned job.
- PacketServers.PacketServer.Commit: manifest, document and PDF hashes and the size limits are left out; an artifact binds its manifest and body directly.
- Anchors.VerifyAnchor: choosing the latest file, its signature and the checks of its payload are left out.
- AnchorHistory.ReachableHistoryVerifies: recomputing page, manifest, packet document and PDF hashes is left out; recorded hashes are taken as stored.
- Throttles.ThrottleStore.Login: purging dead sessions and minting the session are left out.
- Throttles.MatchingCounter: the clock is past the second of the epoch itself, at which the code raises on a negative time step.
- Throttles.FindMatchingCounter: the same.
- Extraction.ExtractPages: opening the document (magic bytes, encryption, page count) and the answers of the PDF and OCR libraries are inputs; the limits on the number of pages appear as a premise, and confidences are real numbers.
- ExtractionPayload.ParseResultPayload: which of the validator's messages a refusal carries, and which exception a break is, are not told apart; a page number is kept as the whole number it equals.
- Visibility.RefusalsTellNothing: compares refusals only; what the read endpoints return is not modelled, nor are the text rules that may refuse before or between these checks.
- Row and advisory locks: an operation is one atomic step; packet generation alone is split into snapshot, render and commit. Membership administration is claimed for atomic steps only.
- Text rules: minimum lengths, trimming, case folding of paragraph references, and the free-text, status-word and name fields of audit events.
- Routes that name no matter (`POST /claims` and its like): an operation takes its matter as a parameter.
- Serializers, pagination and row limits of read endpoints; the evidence read filters beyond role and privilege.
- The local TypeScript packet builder and local-mode operations: they repeat the server rules in a weaker form.
- Opening a matter writes a first audit event; the evidence machine starts matters with an empty chain, and `Membership` models the opening itself.
- A claim whose source row is missing, or a conflict whose claim row is missing: foreign keys are part of the invariant.
- Section roots: the tips are a set rather than a list sorted by section and revision.
- Sessions, password rotation and MFA enrolment around the throttle table; factor codes arrive with their spaces removed.
- The result-file size cap of the extraction child.
- The browser store before its first session shows nothing rather than the built-in sample matter; a dispatched action is applied at once, so render lag is not modelled; the administration list and selection fields of the screen are not modelled.
