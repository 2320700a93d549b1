// What each workflow operation means: its refusals and the state it leaves.
// Here the claim caches are rebuilt for every claim from the conflict table;
// the operations themselves touch at most two claims.

module Steps {
  import opened Basics
  import opened Domain
  import opened Chains
  import opened Evidence
  import opened Lineage

  // A reviewer with the matter roles of their active memberships.
  datatype Actor = Actor(id: Id, name: string, roles: map<Id, Role>) {
    predicate Member(caseId: Id) { caseId in roles }
  }

  // What a refusal tells its reader: which message, and what of the rows it names.
  datatype Objection =
    | NotAMember | UploadNeedsClearance
    | SourceMissing | SourceElsewhere | PageOfAnotherSource | QuoteNotOnPage(page: nat)
    | SameClaimTwice | ClaimsMissing | ClaimsElsewhere | PairOpen(conflict: Id)
    | ConflictMissing | ConflictElsewhere | ConflictStale(version: nat) | DecisionNeedsSenior | NoClaimSelected
    | ClaimNotInConflict | ClaimRowGone | EvidenceNeedsClearance | PairReopened
    | AttestationNeedsSenior | ClaimMissing | QuoteNotAwaiting | OwnClaim
    | ReferenceUsed(title: string) | NothingCited | CitedTwice | CitedMissing(claim: Id)
    | SectionMissing | SectionElsewhere | VersionMissing | SectionStale(version: nat) | ApprovalNeedsSenior
    | SectionNotEligible
  {
    function Kind(): Error
    {
      match this
      case NotAMember => PermissionDenied
      case UploadNeedsClearance => PermissionDenied
      case DecisionNeedsSenior => PermissionDenied
      case EvidenceNeedsClearance => PermissionDenied
      case AttestationNeedsSenior => PermissionDenied
      case OwnClaim => PermissionDenied
      case ApprovalNeedsSenior => PermissionDenied
      case SourceMissing => NotFound
      case SourceElsewhere => NotFound
      case ConflictMissing => NotFound
      case ConflictElsewhere => NotFound
      case ClaimMissing => NotFound
      case SectionMissing => NotFound
      case SectionElsewhere => NotFound
      case PairOpen(_) => DuplicateConflict
      case ConflictStale(_) => StaleUpdate
      case SectionStale(_) => StaleUpdate
      case ClaimRowGone => Unhandled
      case PairReopened => Unhandled
      case _ => ValidationFailure
    }
  }

  datatype Outcome = Done | Refused(objection: Objection)

  // ---- Audit and approval invalidation ----

  function WithdrawCase(sections: map<Id, Section>, caseId: Id): map<Id, Section>
  {
    map s | s in sections ::
      if sections[s].caseId == caseId then sections[s].(approvalCurrent := false) else sections[s]
  }

  function WithdrawOne(sections: map<Id, Section>, caseId: Id, id: Id): map<Id, Section>
  {
    if id in sections && sections[id].caseId == caseId then
      sections[id := sections[id].(approvalCurrent := false)]
    else sections
  }

  // An event on evidence withdraws every approval of its matter; a section
  // event withdraws that section's, unless it is the approval itself.
  function Withdrawn(sections: map<Id, Section>, caseId: Id, event: AuditEvent): map<Id, Section>
  {
    if event.subject in {OnClaim, OnConflict, OnSource} then WithdrawCase(sections, caseId)
    else if event.subject == OnSection && event.action != SectionApproved then
      WithdrawOne(sections, caseId, event.subjectId)
    else sections
  }

  function Audited(st: State, caseId: Id, event: AuditEvent): State
  {
    var log := st.AuditOf(caseId);
    st.(sections := Withdrawn(st.sections, caseId, event),
        audit := st.audit[caseId := log + [NextRow(log, |log|, event)]])
  }

  function Event(actor: Actor, caseId: Id, at: int, action: Action, subject: Subject, id: Id, changed: bool): AuditEvent
    requires actor.Member(caseId)
  {
    AuditEvent(at, actor.id, actor.roles[caseId], action, subject, id, changed)
  }

  // ---- Global recomputation of the claim caches ----

  function Settled(conflicts: map<Id, Conflict>, claims: map<Id, Claim>): (r: map<Id, Claim>)
    ensures r.Keys == claims.Keys
  {
    map c | c in claims :: Recomputed(conflicts, c, claims[c])
  }

  // The reviewer and the time a decision or a flag leaves on its two claims.
  function Touched(claims: map<Id, Claim>, id: Id, reviewer: string, now: int): (r: map<Id, Claim>)
    requires id in claims
    ensures r.Keys == claims.Keys
  {
    claims[id := claims[id].(assessment := claims[id].assessment.(reviewer := Some(reviewer)), updatedAt := now)]
  }

  // ---- Sources ----

  function SourceRefusal(actor: Actor, caseId: Id, privilege: Privilege): Option<Objection>
  {
    if !actor.Member(caseId) then Some(NotAMember)
    else if privilege.Withholding() && !Cleared(actor.roles[caseId]) then Some(UploadNeedsClearance)
    else None
  }

  // An accepted upload and the extraction made of it.
  datatype Upload = Upload(identity: SourceIdentity, privilege: Privilege, origin: string, docketRef: Option<string>,
                           contentHash: string, custody: string, runId: Id, manifest: string, pages: map<Id, NewPage>)

  datatype NewPage = NewPage(number: nat, evidence: PageEvidence, textHash: string)

  function SourceOf(caseId: Id, upload: Upload, now: int): Source
  {
    Source(caseId, upload.identity, upload.privilege,
           SourceDetails(upload.origin, upload.docketRef, now, upload.contentHash, upload.custody,
                         Some(upload.contentHash), Some(upload.runId)))
  }

  function PagesFrom(caseId: Id, id: Id, upload: Upload): (r: map<Id, Page>)
    ensures r.Keys == upload.pages.Keys
  {
    map p | p in upload.pages ::
      Page(caseId, id, upload.runId, upload.pages[p].number, upload.pages[p].evidence, upload.pages[p].textHash)
  }

  // The source with its stored document, its one extraction run and the pages.
  function Ingested(st: State, caseId: Id, id: Id, upload: Upload, now: int): State
  {
    st.(sources := st.sources[id := SourceOf(caseId, upload, now)],
        runs := st.runs[upload.runId := ExtractionRun(caseId, id, upload.manifest)],
        pages := st.pages + PagesFrom(caseId, id, upload))
  }

  function SourceIngest(st: State, actor: Actor, caseId: Id, id: Id, upload: Upload, now: int): State
    requires actor.Member(caseId)
  {
    Audited(Ingested(st, caseId, id, upload, now), caseId,
            Event(actor, caseId, now, SourceIngested, OnSource, id, false))
  }

  // ---- Claims ----

  datatype NewClaim = NewClaim(sourceId: Id, content: ClaimContent, confidence: real, quality: string,
                               pageId: Option<Id>, found: bool, minOcrPercent: int)

  function PageCited(st: State, input: NewClaim): Option<PageEvidence>
  {
    if input.pageId.Some? && input.pageId.value in st.pages then Some(st.pages[input.pageId.value].evidence) else None
  }

  predicate PageBelongs(st: State, input: NewClaim)
    requires input.sourceId in st.sources
  {
    input.pageId.Some? ==>
      && input.pageId.value in st.pages
      && var page := st.pages[input.pageId.value];
         page.sourceId == input.sourceId && page.caseId == st.sources[input.sourceId].caseId &&
         Some(page.runId) == st.sources[input.sourceId].details.activeRun
  }

  // Within the matter, a source the reviewer may not read is answered as a
  // missing one.
  function ClaimRefusal(st: State, actor: Actor, caseId: Id, input: NewClaim): Option<Objection>
  {
    if !actor.Member(caseId) then Some(NotAMember)
    else if input.sourceId !in st.sources then Some(SourceMissing)
    else if st.sources[input.sourceId].caseId != caseId then Some(SourceElsewhere)
    else if !VisibleTo(actor.roles[caseId], st.sources[input.sourceId].privilege) then Some(SourceMissing)
    else if !PageBelongs(st, input) then Some(PageOfAnotherSource)
    else if EvaluateQuote(PageCited(st, input), input.found, input.minOcrPercent).None?
      then Some(QuoteNotOnPage(PageNumber(st, input)))
    else None
  }

  function PageNumber(st: State, input: NewClaim): nat
  {
    if input.pageId.Some? && input.pageId.value in st.pages then st.pages[input.pageId.value].number else 0
  }

  function ClaimCreated(st: State, id: Id, input: NewClaim, now: int): Claim
    requires input.sourceId in st.sources
    requires EvaluateQuote(PageCited(st, input), input.found, input.minOcrPercent).Some?
  {
    var source := st.sources[input.sourceId];
    var quote := EvaluateQuote(PageCited(st, input), input.found, input.minOcrPercent).value;
    Claim(source.caseId, input.sourceId, source.privilege, input.content,
          Assessment(input.confidence, input.quality, None), Unreviewed,
          ComputeEligibility(Unreviewed, source.privilege, {}, quote), quote,
          if quote == LegacyUnverified then None else Some(Basis(id, input.sourceId, input.pageId, input.content.quote)),
          input.pageId, now)
  }

  function ClaimExtract(st: State, actor: Actor, caseId: Id, id: Id, input: NewClaim, now: int): State
    requires ClaimRefusal(st, actor, caseId, input).None?
  {
    Audited(st.(claims := st.claims[id := ClaimCreated(st, id, input, now)]), caseId,
            Event(actor, caseId, now, ClaimExtracted, OnClaim, id, false))
  }

  // ---- Flagging a conflict ----

  datatype NewConflict = NewConflict(a: Id, b: Id, kind: string, severity: Severity, summary: string)

  predicate OpenStatus(s: ConflictStatus) { s == Unresolved || s == Escalated }

  predicate SamePair(f: Conflict, a: Id, b: Id) { (f.a == a && f.b == b) || (f.a == b && f.b == a) }

  // A claim of any matter the reviewer works on.
  predicate ClaimSeen(st: State, actor: Actor, id: Id)
  {
    && id in st.claims && actor.Member(st.claims[id].caseId)
    && VisibleTo(actor.roles[st.claims[id].caseId], st.claims[id].privilege)
  }

  function OpenPairs(conflicts: map<Id, Conflict>, caseId: Id, a: Id, b: Id): set<Id>
  {
    set f | f in conflicts && conflicts[f].caseId == caseId && OpenStatus(conflicts[f].status) && SamePair(conflicts[f], a, b)
  }

  // The least of some identifiers.
  function First(ids: set<Id>): Id
    requires ids != {}
  {
    SortedFacts(ids);
    assert forall x :: x in Sorted(ids) <==> x in ids;
    Sorted(ids)[0]
  }

  predicate ClaimVisible(st: State, actor: Actor, caseId: Id, id: Id)
    requires actor.Member(caseId)
  {
    id in st.claims && st.claims[id].caseId == caseId && VisibleTo(actor.roles[caseId], st.claims[id].privilege)
  }

  function FlagRefusal(st: State, actor: Actor, caseId: Id, input: NewConflict): Option<Objection>
  {
    if input.a == input.b then Some(SameClaimTwice)
    else if !actor.Member(caseId) then Some(NotAMember)
    else if !ClaimSeen(st, actor, input.a) || !ClaimSeen(st, actor, input.b) then Some(ClaimsMissing)
    else if st.claims[input.a].caseId != caseId || st.claims[input.b].caseId != caseId then Some(ClaimsElsewhere)
    else
      var open := OpenPairs(st.conflicts, caseId, input.a, input.b);
      if open != {} then Some(PairOpen(First(open))) else None
  }

  function ConflictOpened(caseId: Id, input: NewConflict, now: int): Conflict
  {
    Conflict(caseId, input.a, input.b, input.kind, input.severity, Unresolved, input.summary, now, 1, Disputed, Disputed)
  }

  function StatusEvent(before: map<Id, Claim>, after: map<Id, Claim>, actor: Actor, caseId: Id, id: Id,
                       now: int): AuditEvent
    requires actor.Member(caseId) && id in before && id in after
  {
    Event(actor, caseId, now, StatusUpdated, OnClaim, id, before[id].eligibility != after[id].eligibility)
  }

  function Flagged(st: State, actor: Actor, caseId: Id, id: Id, input: NewConflict, now: int): State
    requires FlagRefusal(st, actor, caseId, input).None?
  {
    var conflicts := st.conflicts[id := ConflictOpened(caseId, input, now)];
    var claims := Settled(conflicts, Touched(Touched(st.claims, input.a, actor.name, now), input.b, actor.name, now));
    var s0 := st.(conflicts := conflicts, claims := claims);
    var s1 := Audited(s0, caseId, StatusEvent(st.claims, claims, actor, caseId, input.a, now));
    var s2 := Audited(s1, caseId, StatusEvent(st.claims, claims, actor, caseId, input.b, now));
    Audited(s2, caseId, Event(actor, caseId, now, ConflictFlagged, OnConflict, id, true))
  }

  // ---- Deciding a conflict ----

  datatype Ruling = Ruling(conflictId: Id, decision: DecisionType, selected: Option<Id>,
                           reasoning: string, expectedVersion: nat)

  function DecideRefusal(st: State, actor: Actor, caseId: Id, input: Ruling): Option<Objection>
  {
    if !actor.Member(caseId) then Some(NotAMember)
    else if input.conflictId !in st.conflicts then Some(ConflictMissing)
    else if st.conflicts[input.conflictId].caseId != caseId then Some(ConflictElsewhere)
    else
      var f := st.conflicts[input.conflictId];
      if f.version != input.expectedVersion then Some(ConflictStale(f.version))
      else if !DecisionAllowed(input.decision, actor.roles[caseId], f.severity) then Some(DecisionNeedsSenior)
      else if input.decision == MarkSourceUnreliable && input.selected.None? then Some(NoClaimSelected)
      else if input.decision == MarkSourceUnreliable && input.selected != Some(f.a) && input.selected != Some(f.b)
        then Some(ClaimNotInConflict)
      else if f.a !in st.claims || f.b !in st.claims then Some(ClaimRowGone)
      else if !VisibleTo(actor.roles[caseId], st.claims[f.a].privilege) ||
              !VisibleTo(actor.roles[caseId], st.claims[f.b].privilege) then Some(EvidenceNeedsClearance)
      else if Reopens(st, caseId, input) then Some(PairReopened)
      else None
  }

  // The index on open pairs rejects a ruling that would leave two of them open.
  predicate Reopens(st: State, caseId: Id, input: Ruling)
    requires input.conflictId in st.conflicts
  {
    var f := st.conflicts[input.conflictId];
    && OpenStatus(ConflictDecided(f, input).status)
    && OpenPairs(st.conflicts, caseId, f.a, f.b) - {input.conflictId} != {}
  }

  function ConflictDecided(f: Conflict, input: Ruling): Conflict
  {
    var t := TransitionFor(input.decision, input.selected, f.a);
    f.(status := t.status, dispositionA := t.a, dispositionB := t.b, version := f.version + 1)
  }

  function AuditedIfChanged(st: State, before: map<Id, Claim>, actor: Actor, caseId: Id, id: Id, now: int): (r: State)
    requires actor.Member(caseId) && id in before && id in st.claims
    ensures r.claims == st.claims && r.conflicts == st.conflicts
  {
    if before[id].status != st.claims[id].status || before[id].eligibility != st.claims[id].eligibility then
      Audited(st, caseId, StatusEvent(before, st.claims, actor, caseId, id, now))
    else st
  }

  function SelectedClaim(f: Conflict, input: Ruling): Option<Id>
  {
    match input.decision
    case AcceptClaimA => Some(f.a)
    case AcceptClaimB => Some(f.b)
    case _ => input.selected
  }

  function Decided(st: State, actor: Actor, caseId: Id, input: Ruling, now: int): State
    requires DecideRefusal(st, actor, caseId, input).None?
  {
    var f := st.conflicts[input.conflictId];
    var conflicts := st.conflicts[input.conflictId := ConflictDecided(f, input)];
    var claims := Settled(conflicts, Touched(Touched(st.claims, f.a, actor.name, now), f.b, actor.name, now));
    var s0 := st.(conflicts := conflicts, claims := claims);
    var s1 := AuditedIfChanged(s0, st.claims, actor, caseId, f.a, now);
    var s2 := AuditedIfChanged(s1, st.claims, actor, caseId, f.b, now);
    Audited(Ruled(s2, st, actor, caseId, input, now), caseId,
            Event(actor, caseId, now, DecisionMade(input.decision), OnConflict, input.conflictId, false))
  }

  function RecordOf(st: State, before: State, actor: Actor, caseId: Id, input: Ruling, now: int): DecisionRecord
    requires DecideRefusal(before, actor, caseId, input).None?
    requires st.claims.Keys == before.claims.Keys && st.conflicts.Keys == before.conflicts.Keys
  {
    var f := before.conflicts[input.conflictId];
    DecisionRecord(input.conflictId, input.decision, SelectedClaim(f, input), input.reasoning, actor.name,
                   actor.roles[caseId], now, f.status, st.conflicts[input.conflictId].status,
                   st.claims[f.a].eligibility, st.claims[f.b].eligibility)
  }

  function DecisionLogged(st: State, caseId: Id, record: DecisionRecord): State
  {
    var log := st.DecisionsOf(caseId);
    st.(decisions := st.decisions[caseId := log + [NextRow(log, |log|, record)]])
  }

  // The decision row joins the matter's decision chain.
  function Ruled(st: State, before: State, actor: Actor, caseId: Id, input: Ruling, now: int): State
    requires DecideRefusal(before, actor, caseId, input).None?
    requires st.claims.Keys == before.claims.Keys && st.conflicts.Keys == before.conflicts.Keys
  {
    DecisionLogged(st, caseId, RecordOf(st, before, actor, caseId, input, now))
  }

  // ---- Attesting a quote ----

  // Who extracted the claim, from the audit trail.
  function AuthorOf(log: seq<Row<AuditEvent>>, claim: Id): Option<Id>
  {
    if log == [] then None
    else if log[0].content.subject == OnClaim && log[0].content.subjectId == claim &&
            log[0].content.action == ClaimExtracted then Some(log[0].content.actor)
    else AuthorOf(log[1..], claim)
  }

  function AttestRefusal(st: State, actor: Actor, caseId: Id, claim: Id): Option<Objection>
  {
    if !actor.Member(caseId) then Some(NotAMember)
    else if !Cleared(actor.roles[caseId]) then Some(AttestationNeedsSenior)
    else if claim !in st.claims || st.claims[claim].caseId != caseId then Some(ClaimMissing)
    else if st.claims[claim].quoteState != ManualRequired then Some(QuoteNotAwaiting)
    else if AuthorOf(st.AuditOf(caseId), claim) == Some(actor.id) then Some(OwnClaim)
    else None
  }

  function Attested(st: State, actor: Actor, caseId: Id, claim: Id, now: int): State
    requires AttestRefusal(st, actor, caseId, claim).None?
  {
    var c := st.claims[claim].(quoteState := ManuallyVerified, updatedAt := now);
    Audited(st.(claims := Settled(st.conflicts, st.claims[claim := c])), caseId,
            Event(actor, caseId, now, QuoteVerified, OnClaim, claim, true))
  }

  // ---- Report sections ----

  predicate HoldsReference(sections: map<Id, Section>, caseId: Id, reference: string, editing: Option<Id>, s: Id)
  {
    s in sections && sections[s].caseId == caseId && Some(s) != editing && sections[s].snapshot.paragraphRef == reference
  }

  function Holders(sections: map<Id, Section>, caseId: Id, reference: string, editing: Option<Id>): set<Id>
  {
    set s | s in sections && HoldsReference(sections, caseId, reference, editing, s)
  }

  // The title of the other section of the matter that carries the reference.
  function TitleOver(st: State, caseId: Id, reference: string, editing: Option<Id>): Option<string>
  {
    var held := Holders(st.sections, caseId, reference, editing);
    if held == {} then None else Some(st.sections[First(held)].snapshot.title)
  }

  // The first citation the reviewer cannot see in the matter.
  function FirstUnknown(st: State, actor: Actor, caseId: Id, cites: seq<Id>): (r: Option<Id>)
    requires actor.Member(caseId)
    ensures r.None? <==> forall c :: c in cites ==> ClaimVisible(st, actor, caseId, c)
    ensures r.Some? ==> r.value in cites && !ClaimVisible(st, actor, caseId, r.value)
  {
    if cites == [] then None
    else if !ClaimVisible(st, actor, caseId, cites[0]) then Some(cites[0])
    else FirstUnknown(st, actor, caseId, cites[1..])
  }

  function SnapshotRefusal(st: State, actor: Actor, caseId: Id, snapshot: Snapshot,
                           editing: Option<Id>): Option<Objection>
    requires actor.Member(caseId)
  {
    var over := TitleOver(st, caseId, snapshot.paragraphRef, editing);
    if over.Some? then Some(ReferenceUsed(over.value))
    else if snapshot.cites == [] then Some(NothingCited)
    else if |Elements(snapshot.cites)| != |snapshot.cites| then Some(CitedTwice)
    else
      match FirstUnknown(st, actor, caseId, snapshot.cites)
      case Some(c) => Some(CitedMissing(c))
      case None => None
  }

  // Appends a revision of a section and makes it the active one.
  function RevisionOf(st: State, id: Id, section: Section, revisionId: Id, actor: Actor, now: int,
                      reason: string, evidence: Option<Digest>): Revision
    requires actor.Member(section.caseId)
  {
    var parent := if section.active.Some? && section.active.value in st.revisions
                  then Some(st.revisions[section.active.value]) else None;
    NextRevision(parent, revisionId,
                 RevisionContent(id, section.caseId, section.snapshot, actor.id, actor.roles[section.caseId], now, reason,
                                 section.active, evidence.Some?,
                                 ContentOf(section.caseId, id, section.snapshot), evidence))
  }

  function Revised(st: State, id: Id, section: Section, revisionId: Id, actor: Actor, now: int,
                   reason: string, evidence: Option<Digest>): State
    requires actor.Member(section.caseId)
  {
    st.(revisions := st.revisions[revisionId := RevisionOf(st, id, section, revisionId, actor, now, reason, evidence)],
        sections := st.sections[id := section.(active := Some(revisionId))])
  }

  function DraftRefusal(st: State, actor: Actor, caseId: Id, snapshot: Snapshot): Option<Objection>
  {
    if !actor.Member(caseId) then Some(NotAMember) else SnapshotRefusal(st, actor, caseId, snapshot, None)
  }

  // One past the highest position of the matter, from zero.
  function NextPosition(sections: map<Id, Section>, caseId: Id, ids: seq<Id>): int
  {
    if ids == [] then 0
    else
      var rest := NextPosition(sections, caseId, ids[1..]);
      if ids[0] in sections && sections[ids[0]].caseId == caseId && sections[ids[0]].position + 1 > rest
      then sections[ids[0]].position + 1 else rest
  }

  function Drafted(st: State, actor: Actor, caseId: Id, id: Id, revisionId: Id, snapshot: Snapshot, now: int): State
    requires DraftRefusal(st, actor, caseId, snapshot).None?
  {
    var section := Section(caseId, snapshot, NextPosition(st.sections, caseId, Sorted(st.sections.Keys)), None, 1, false);
    Audited(Revised(st, id, section, revisionId, actor, now, "Initial draft.", None), caseId,
            Event(actor, caseId, now, SectionDrafted, OnSection, id, false))
  }

  function SectionRefusal(st: State, actor: Actor, caseId: Id, id: Id, expectedVersion: Option<nat>): Option<Objection>
  {
    if !actor.Member(caseId) then Some(NotAMember)
    else if id !in st.sections then Some(SectionMissing)
    else if st.sections[id].caseId != caseId then Some(SectionElsewhere)
    else if expectedVersion.None? then Some(VersionMissing)
    else if st.sections[id].version != expectedVersion.value then Some(SectionStale(st.sections[id].version))
    else None
  }

  function ReviseRefusal(st: State, actor: Actor, caseId: Id, id: Id, expectedVersion: Option<nat>,
                         snapshot: Snapshot): Option<Objection>
  {
    var early := SectionRefusal(st, actor, caseId, id, expectedVersion);
    if early.Some? then early else SnapshotRefusal(st, actor, caseId, snapshot, Some(id))
  }

  function RevisedSection(st: State, actor: Actor, caseId: Id, id: Id, revisionId: Id,
                          expectedVersion: Option<nat>, snapshot: Snapshot, reason: string, now: int): State
    requires ReviseRefusal(st, actor, caseId, id, expectedVersion, snapshot).None?
  {
    var section := st.sections[id].(snapshot := snapshot, version := st.sections[id].version + 1);
    Audited(Revised(st, id, section, revisionId, actor, now, reason, None), caseId,
            Event(actor, caseId, now, SectionRevised, OnSection, id,
                  ImpactOf(st, st.sections[id].snapshot.cites).status != ImpactOf(st, snapshot.cites).status))
  }

  function ApproveRefusal(st: State, actor: Actor, caseId: Id, id: Id, expectedVersion: Option<nat>): Option<Objection>
  {
    if !actor.Member(caseId) then Some(NotAMember)
    else if id !in st.sections then Some(SectionMissing)
    else if st.sections[id].caseId != caseId then Some(SectionElsewhere)
    else if actor.roles[caseId] != SeniorCounsel then Some(ApprovalNeedsSenior)
    else if expectedVersion.None? then Some(VersionMissing)
    else if st.sections[id].version != expectedVersion.value then Some(SectionStale(st.sections[id].version))
    else if ImpactOf(st, st.sections[id].snapshot.cites).status !in {SectionEligible, WithDisclosure}
      then Some(SectionNotEligible)
    else None
  }

  function Approved(st: State, actor: Actor, caseId: Id, id: Id, revisionId: Id, expectedVersion: Option<nat>,
                    now: int): State
    requires ApproveRefusal(st, actor, caseId, id, expectedVersion).None?
  {
    var section := st.sections[id].(version := st.sections[id].version + 1, approvalCurrent := true);
    Audited(Revised(st, id, section, revisionId, actor, now, "Approved complete rendered section for production.",
                    Some(EvidenceDigest(st, section.snapshot.cites))),
            caseId, Event(actor, caseId, now, SectionApproved, OnSection, id, false))
  }

  // A committed packet leaves only an export event in the evidence tables.
  function Exported(st: State, actor: Actor, caseId: Id, packetId: Id, now: int): State
    requires actor.Member(caseId)
  {
    Audited(st, caseId, Event(actor, caseId, now, PacketGenerated, OnExport, packetId, false))
  }
}
