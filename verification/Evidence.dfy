// The evidence rows of all matters, and every query the workflow asks of them.

module Evidence {
  import opened Basics
  import opened Domain
  import opened Chains

  // ---- Rows ----

  datatype SourceIdentity = SourceIdentity(title: string, kind: string, custodian: string)

  datatype SourceDetails = SourceDetails(origin: string, docketRef: Option<string>, ingestedAt: int,
                                         sha256: string, custody: string, stored: Option<string>,
                                         activeRun: Option<Id>)

  datatype Source = Source(caseId: Id, identity: SourceIdentity, privilege: Privilege, details: SourceDetails)

  datatype Page = Page(caseId: Id, sourceId: Id, runId: Id, number: nat, evidence: PageEvidence, textHash: string)

  datatype ExtractionRun = ExtractionRun(caseId: Id, sourceId: Id, manifest: string)

  datatype ClaimContent = ClaimContent(text: string, pageRef: string, quote: string)

  datatype Assessment = Assessment(confidence: real, quality: string, reviewer: Option<string>)

  // What a quote verification covered.
  datatype Basis = Basis(claimId: Id, sourceId: Id, pageId: Option<Id>, quote: string)

  datatype Claim = Claim(caseId: Id, sourceId: Id, privilege: Privilege, content: ClaimContent,
                         assessment: Assessment, status: ClaimStatus, eligibility: Eligibility,
                         quoteState: QuoteState, basis: Option<Basis>, pageId: Option<Id>, updatedAt: int)

  datatype Conflict = Conflict(caseId: Id, a: Id, b: Id, kind: string, severity: Severity,
                               status: ConflictStatus, summary: string, createdAt: int, version: nat,
                               dispositionA: ClaimStatus, dispositionB: ClaimStatus) {
    predicate Touches(claim: Id) { claim == a || claim == b }

    function DispositionOf(claim: Id): ClaimStatus { if claim == a then dispositionA else dispositionB }
  }

  datatype Snapshot = Snapshot(title: string, paragraphRef: string, text: string, cites: seq<Id>)

  datatype Section = Section(caseId: Id, snapshot: Snapshot, position: int, active: Option<Id>,
                             version: nat, approvalCurrent: bool)

  datatype ContentHash = ContentOf(caseId: Id, sectionId: Id, snapshot: Snapshot) | ForeignContent(text: string)

  // Everything a revision row binds, apart from the chain columns themselves.
  datatype RevisionContent = RevisionContent(sectionId: Id, caseId: Id, snapshot: Snapshot, author: Id,
                                             role: Role, createdAt: int, reason: string, parent: Option<Id>,
                                             approved: bool, contentHash: ContentHash, evidence: Option<Digest>)

  type Revision = Row<RevisionContent>

  datatype Subject = OnSource | OnClaim | OnConflict | OnSection | OnExport

  datatype Action =
    | SourceIngested | ClaimExtracted | QuoteVerified | StatusUpdated | ConflictFlagged
    | DecisionMade(decision: DecisionType) | SectionDrafted | SectionRevised | SectionApproved | PacketGenerated

  datatype AuditEvent = AuditEvent(at: int, actor: Id, role: Role, action: Action, subject: Subject,
                                   subjectId: Id, eligibilityChanged: bool)

  datatype DecisionRecord = DecisionRecord(conflictId: Id, decision: DecisionType, selected: Option<Id>,
                                           reasoning: string, reviewer: string, role: Role, at: int,
                                           previous: ConflictStatus, current: ConflictStatus,
                                           impactA: Eligibility, impactB: Eligibility)

  datatype State = State(sources: map<Id, Source>, runs: map<Id, ExtractionRun>, pages: map<Id, Page>,
                         claims: map<Id, Claim>, conflicts: map<Id, Conflict>,
                         sections: map<Id, Section>, revisions: map<Id, Revision>, audit: map<Id, seq<Row<AuditEvent>>>,
                         decisions: map<Id, seq<Row<DecisionRecord>>>) {
    function AuditOf(caseId: Id): seq<Row<AuditEvent>> { if caseId in audit then audit[caseId] else [] }

    function DecisionsOf(caseId: Id): seq<Row<DecisionRecord>>
    {
      if caseId in decisions then decisions[caseId] else []
    }
  }

  // ---- A claim's conflicts, and the two caches derived from them ----

  function Incident(conflicts: map<Id, Conflict>, claim: Id): (r: set<Id>)
  {
    set f | f in conflicts && conflicts[f].Touches(claim)
  }

  // Ordered by creation time, then identifier.
  function RelatedConflicts(conflicts: map<Id, Conflict>, claim: Id): (r: seq<Id>)
    ensures forall f :: f in r <==> f in conflicts && conflicts[f].Touches(claim)
    ensures Distinct(r)
  {
    var ids := Incident(conflicts, claim);
    var rank := map f | f in ids :: conflicts[f].createdAt;
    SortedByFacts(ids, rank);
    SortedBy(ids, rank)
  }

  function Dispositions(conflicts: map<Id, Conflict>, related: seq<Id>, claim: Id): (r: seq<ClaimStatus>)
    requires forall f :: f in related ==> f in conflicts
    ensures |r| == |related|
    ensures forall i :: 0 <= i < |r| ==> r[i] == conflicts[related[i]].DispositionOf(claim)
  {
    seq(|related|, i requires 0 <= i < |related| => conflicts[related[i]].DispositionOf(claim))
  }

  function StatusOf(conflicts: map<Id, Conflict>, claim: Id): ClaimStatus
  {
    AggregateStatus(Dispositions(conflicts, RelatedConflicts(conflicts, claim), claim))
  }

  // No conflict of a claim is ever outranked by its global status.
  lemma StatusIsMostDecisive(conflicts: map<Id, Conflict>, claim: Id)
    ensures forall f :: f in Incident(conflicts, claim) ==>
              Precedence(StatusOf(conflicts, claim)) <= Precedence(conflicts[f].DispositionOf(claim))
    ensures StatusOf(conflicts, claim) == Unreviewed ||
            exists f :: f in Incident(conflicts, claim) && StatusOf(conflicts, claim) == conflicts[f].DispositionOf(claim)
  {
    var related := RelatedConflicts(conflicts, claim);
    var ds := Dispositions(conflicts, related, claim);
    forall f | f in Incident(conflicts, claim)
      ensures Precedence(StatusOf(conflicts, claim)) <= Precedence(conflicts[f].DispositionOf(claim))
    {
      var i := IndexOf(related, f);
      assert ds[i] in ds;
    }
    if ds != [] {
      var s := AggregateStatus(ds);
      var i := IndexOf(ds, s);
      assert related[i] in related;
      assert related[i] in Incident(conflicts, claim);
    }
  }

  function RelatedStatuses(conflicts: map<Id, Conflict>, claim: Id): set<ConflictStatus>
  {
    set f | f in Incident(conflicts, claim) :: conflicts[f].status
  }

  function EligibilityOf(conflicts: map<Id, Conflict>, id: Id, claim: Claim): Eligibility
  {
    ComputeEligibility(claim.status, claim.privilege, RelatedStatuses(conflicts, id), claim.quoteState)
  }

  // Both caches rebuilt from the conflict table alone.
  function Recomputed(conflicts: map<Id, Conflict>, id: Id, claim: Claim): (r: Claim)
  {
    var c := claim.(status := StatusOf(conflicts, id));
    c.(eligibility := EligibilityOf(conflicts, id, c))
  }

  lemma RelatedFrame(before: map<Id, Conflict>, after: map<Id, Conflict>, id: Id)
    requires Incident(before, id) == Incident(after, id)
    requires forall f :: f in Incident(before, id) ==> before[f].createdAt == after[f].createdAt
    ensures RelatedConflicts(before, id) == RelatedConflicts(after, id)
  {
    var ids := Incident(before, id);
    assert (map f | f in ids :: before[f].createdAt) == (map f | f in ids :: after[f].createdAt);
  }

  // The caches depend on nothing but the claim's own conflicts.
  lemma RecomputedFrame(before: map<Id, Conflict>, after: map<Id, Conflict>, id: Id, claim: Claim)
    requires Incident(before, id) == Incident(after, id)
    requires forall f :: f in Incident(before, id) ==> before[f] == after[f]
    ensures RelatedConflicts(before, id) == RelatedConflicts(after, id)
    ensures Recomputed(before, id, claim) == Recomputed(after, id, claim)
  {
    RelatedFrame(before, after, id);
    var related := RelatedConflicts(before, id);
    assert Dispositions(before, related, id) == Dispositions(after, related, id) by {
      assert forall f :: f in related ==> f in Incident(before, id);
    }
    assert RelatedStatuses(before, id) == RelatedStatuses(after, id);
  }

  // ---- Preserved-conflict closure ----

  // A preserved conflict can be followed from either of its claims.
  type Edge = (Id, Id)

  function PreservedEdges(conflicts: map<Id, Conflict>): set<Edge>
  {
    (set f | f in conflicts && conflicts[f].status == PreservedBoth :: (conflicts[f].a, conflicts[f].b)) +
    (set f | f in conflicts && conflicts[f].status == PreservedBoth :: (conflicts[f].b, conflicts[f].a))
  }

  function Ends(edges: set<Edge>): set<Id>
  {
    set e | e in edges :: e.1
  }

  function Neighbours(edges: set<Edge>, frontier: set<Id>): set<Id>
  {
    set e | e in edges && e.0 in frontier :: e.1
  }

  lemma NeighboursAreEnds(edges: set<Edge>, frontier: set<Id>)
    ensures Neighbours(edges, frontier) <= Ends(edges)
  {
  }

  function Expand(edges: set<Edge>, seen: set<Id>, frontier: set<Id>): (r: seq<Id>)
    decreases Ends(edges) - seen, frontier
  {
    if frontier == {} then []
    else
      var discovered := Neighbours(edges, frontier) - seen;
      Sorted(discovered) + Expand(edges, seen + discovered, discovered)
  }

  // The cited claims, then everything their preserved disclosures reach.
  function EvidenceIds(edges: set<Edge>, cites: seq<Id>): seq<Id>
  {
    var ordered := Dedup(cites);
    ordered + Expand(edges, Elements(ordered), Elements(ordered))
  }

  function EvidenceOf(conflicts: map<Id, Conflict>, cites: seq<Id>): seq<Id>
  {
    EvidenceIds(PreservedEdges(conflicts), cites)
  }

  // ---- The approval digest: an injective image of the evidence ----

  datatype ConflictImage = ConflictImage(id: Id, a: Id, b: Id, kind: string, severity: Severity,
                                         status: ConflictStatus, summary: string,
                                         dispositionA: ClaimStatus, dispositionB: ClaimStatus, version: nat)

  datatype SourceImage = SourceImage(id: Id, identity: SourceIdentity, privilege: Privilege, details: SourceDetails)

  datatype ClaimImage =
    | MissingClaim(id: Id)
    | ClaimImage(id: Id, caseId: Id, content: ClaimContent, sourceId: Id, status: ClaimStatus,
                 privilege: Privilege, eligibility: Eligibility, quoteState: QuoteState,
                 basis: Option<Basis>, pageId: Option<Id>, updatedAt: int,
                 source: Option<SourceImage>, conflicts: seq<ConflictImage>)

  datatype Digest = Digest(cites: seq<Id>, evidence: seq<Id>, claims: seq<ClaimImage>)

  function ImageOfConflict(id: Id, f: Conflict): ConflictImage
  {
    ConflictImage(id, f.a, f.b, f.kind, f.severity, f.status, f.summary, f.dispositionA, f.dispositionB, f.version)
  }

  function ConflictImages(conflicts: map<Id, Conflict>, ids: seq<Id>): (r: seq<ConflictImage>)
    requires forall f :: f in ids ==> f in conflicts
  {
    seq(|ids|, i requires 0 <= i < |ids| => ImageOfConflict(ids[i], conflicts[ids[i]]))
  }

  function ImageOfSource(sources: map<Id, Source>, id: Id): Option<SourceImage>
  {
    if id in sources then Some(SourceImage(id, sources[id].identity, sources[id].privilege, sources[id].details))
    else None
  }

  function ImageOfClaim(id: Id, claim: Claim, source: Option<SourceImage>, conflicts: seq<ConflictImage>): ClaimImage
  {
    ClaimImage(id, claim.caseId, claim.content, claim.sourceId, claim.status, claim.privilege,
               claim.eligibility, claim.quoteState, claim.basis, claim.pageId, claim.updatedAt, source, conflicts)
  }

  function IncidentImages(conflicts: map<Id, Conflict>, claim: Id): seq<ConflictImage>
  {
    SortedFacts(Incident(conflicts, claim));
    ConflictImages(conflicts, Sorted(Incident(conflicts, claim)))
  }

  function ClaimImageIn(sources: map<Id, Source>, claims: map<Id, Claim>,
                        conflicts: map<Id, Conflict>, id: Id): ClaimImage
  {
    if id !in claims then MissingClaim(id)
    else ImageOfClaim(id, claims[id], ImageOfSource(sources, claims[id].sourceId), IncidentImages(conflicts, id))
  }

  function DigestIn(sources: map<Id, Source>, claims: map<Id, Claim>,
                    conflicts: map<Id, Conflict>, cites: seq<Id>): Digest
  {
    var evidence := EvidenceOf(conflicts, cites);
    Digest(cites, evidence,
           seq(|evidence|, i requires 0 <= i < |evidence| => ClaimImageIn(sources, claims, conflicts, evidence[i])))
  }

  function EvidenceDigest(st: State, cites: seq<Id>): Digest
  {
    DigestIn(st.sources, st.claims, st.conflicts, cites)
  }

  // ---- Section impact over the closure ----

  ghost predicate Viewed(st: State, evidence: seq<Id>, direct: set<Id>, v: CitedClaim)
  {
    && v.id in evidence && v.id in st.claims
    && (v.id in direct || !st.claims[v.id].privilege.Withholding())
    && v == CitedClaim(v.id, st.claims[v.id].status, st.claims[v.id].eligibility)
  }

  // A withheld counterpart reached only through a disclosure does not make the
  // section itself privileged.
  function CitedViews(st: State, evidence: seq<Id>, direct: set<Id>): (r: seq<CitedClaim>)
    ensures forall v :: v in r <==> Viewed(st, evidence, direct, v)
  {
    if evidence == [] then []
    else
      var id, rest := evidence[0], evidence[1..];
      assert forall x :: x in evidence <==> x == id || x in rest;
      (if id in st.claims && (id in direct || !st.claims[id].privilege.Withholding())
       then [CitedClaim(id, st.claims[id].status, st.claims[id].eligibility)] else []) +
      CitedViews(st, rest, direct)
  }

  function ImpactOf(st: State, cites: seq<Id>): Impact
  {
    SectionImpact(CitedViews(st, EvidenceOf(st.conflicts, cites), Elements(cites)))
  }

  // ---- Revision currency ----

  function SnapshotOf(revision: Revision): Snapshot { revision.content.snapshot }

  predicate RevisionApprovalCurrent(st: State, revision: Revision)
  {
    && revision.content.approved
    && revision.content.evidence == Some(EvidenceDigest(st, revision.content.snapshot.cites))
  }
}
