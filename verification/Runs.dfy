// Whole runs of the evidence workflow: any sequence of operations by any
// actors in any matters, accepted or refused.

module Runs {
  import opened Basics
  import opened Domain
  import opened Chains
  import opened Evidence
  import opened Steps
  import opened Soundness
  import opened Preservation

  datatype Command =
    | IngestSource(id: Id, upload: Upload)
    | ExtractClaim(id: Id, claim: NewClaim)
    | FlagConflict(id: Id, conflict: NewConflict)
    | DecideConflict(ruling: Ruling)
    | AttestQuote(claimId: Id)
    | DraftSection(id: Id, revisionId: Id, snapshot: Snapshot)
    | ReviseSection(sectionId: Id, revisionId: Id, version: Option<nat>, snapshot: Snapshot, reason: string)
    | ApproveSection(sectionId: Id, revisionId: Id, version: Option<nat>)
    | RecordExport(packetId: Id)

  // The database hands out identifiers that no row carries yet.
  predicate FreshIds(st: State, caseId: Id, cmd: Command)
  {
    match cmd
    case IngestSource(id, upload) =>
      id !in st.sources && upload.runId !in st.runs && upload.pages.Keys !! st.pages.Keys
    case ExtractClaim(id, _) => id !in st.claims
    case FlagConflict(id, _) => id !in st.conflicts
    case DecideConflict(_) => true
    case AttestQuote(_) => true
    case DraftSection(id, revisionId, _) => id !in st.sections && revisionId !in st.revisions
    case ReviseSection(_, revisionId, _, _, _) => revisionId !in st.revisions
    case ApproveSection(_, revisionId, _) => revisionId !in st.revisions
    case RecordExport(_) => true
  }

  function Refusal(st: State, actor: Actor, caseId: Id, cmd: Command): Option<Objection>
  {
    match cmd
    case IngestSource(_, upload) => SourceRefusal(actor, caseId, upload.privilege)
    case ExtractClaim(_, claim) => ClaimRefusal(st, actor, caseId, claim)
    case FlagConflict(_, conflict) => FlagRefusal(st, actor, caseId, conflict)
    case DecideConflict(ruling) => DecideRefusal(st, actor, caseId, ruling)
    case AttestQuote(claim) => AttestRefusal(st, actor, caseId, claim)
    case DraftSection(_, _, snapshot) => DraftRefusal(st, actor, caseId, snapshot)
    case ReviseSection(id, _, version, snapshot, _) => ReviseRefusal(st, actor, caseId, id, version, snapshot)
    case ApproveSection(id, _, version) => ApproveRefusal(st, actor, caseId, id, version)
    case RecordExport(_) => if actor.Member(caseId) then None else Some(NotAMember)
  }

  function Effect(st: State, actor: Actor, caseId: Id, cmd: Command, now: int): State
    requires FreshIds(st, caseId, cmd) && Refusal(st, actor, caseId, cmd).None?
  {
    match cmd
    case IngestSource(id, upload) => SourceIngest(st, actor, caseId, id, upload, now)
    case ExtractClaim(id, claim) => ClaimExtract(st, actor, caseId, id, claim, now)
    case FlagConflict(id, conflict) => Flagged(st, actor, caseId, id, conflict, now)
    case DecideConflict(ruling) => Decided(st, actor, caseId, ruling, now)
    case AttestQuote(claim) => Attested(st, actor, caseId, claim, now)
    case DraftSection(id, revisionId, snapshot) => Drafted(st, actor, caseId, id, revisionId, snapshot, now)
    case ReviseSection(id, revisionId, version, snapshot, reason) =>
      RevisedSection(st, actor, caseId, id, revisionId, version, snapshot, reason, now)
    case ApproveSection(id, revisionId, version) => Approved(st, actor, caseId, id, revisionId, version, now)
    case RecordExport(packetId) => Exported(st, actor, caseId, packetId, now)
  }

  datatype Request = Request(actor: Actor, caseId: Id, cmd: Command, now: int)

  // A refused request rolls back.
  ghost predicate Next(st: State, req: Request, next: State)
  {
    && FreshIds(st, req.caseId, req.cmd)
    && next == if Refusal(st, req.actor, req.caseId, req.cmd).Some? then st
               else Effect(st, req.actor, req.caseId, req.cmd, req.now)
  }

  lemma EffectIsGood(st: State, actor: Actor, caseId: Id, cmd: Command, now: int)
    requires Valid(st) && FreshIds(st, caseId, cmd) && Refusal(st, actor, caseId, cmd).None?
    ensures GoodStep(st, Effect(st, actor, caseId, cmd, now), caseId)
  {
    hide Valid, GoodStep, SourceIngest, ClaimExtract, Flagged, Decided, Attested, Drafted, RevisedSection, Approved,
         Exported;
    match cmd
    case IngestSource(id, upload) => SourceIngestKeeps(st, actor, caseId, id, upload, now);
    case ExtractClaim(id, claim) => ClaimExtractKeeps(st, actor, caseId, id, claim, now);
    case FlagConflict(id, conflict) => FlaggedKeeps(st, actor, caseId, id, conflict, now);
    case DecideConflict(ruling) => DecidedKeeps(st, actor, caseId, ruling, now);
    case AttestQuote(claim) => AttestedKeeps(st, actor, caseId, claim, now);
    case DraftSection(id, revisionId, snapshot) => DraftedKeeps(st, actor, caseId, id, revisionId, snapshot, now);
    case ReviseSection(id, revisionId, version, snapshot, reason) =>
      RevisedSectionKeeps(st, actor, caseId, id, revisionId, version, snapshot, reason, now);
    case ApproveSection(id, revisionId, version) => ApprovedKeeps(st, actor, caseId, id, revisionId, version, now);
    case RecordExport(packetId) => ExportedKeeps(st, actor, caseId, packetId, now);
  }

  lemma NextIsGood(st: State, req: Request, next: State)
    requires Valid(st) && Next(st, req, next)
    ensures Valid(next) && StepIn(st, next, req.caseId)
    ensures next == st || |next.AuditOf(req.caseId)| > |st.AuditOf(req.caseId)|
  {
    hide Sound, ApprovalsHonest, Effect, Refusal;
    if Refusal(st, req.actor, req.caseId, req.cmd).Some? {
      SelfStep(st, req.caseId);
    } else {
      EffectIsGood(st, req.actor, req.caseId, req.cmd, req.now);
    }
  }

  // ---- Audit events touch of a section only its flag, and no other indexed or chained row ----

  predicate SameTexts(before: map<Id, Section>, after: map<Id, Section>)
  {
    && before.Keys == after.Keys
    && forall s :: s in before ==> after[s].caseId == before[s].caseId && after[s].snapshot == before[s].snapshot
  }

  predicate KeepsHistory(st: State, next: State)
  {
    && next.revisions == st.revisions && next.runs == st.runs && next.conflicts == st.conflicts
    && next.decisions == st.decisions && SameTexts(st.sections, next.sections)
  }

  lemma AuditKeepsHistory(st: State, k: Id, e: AuditEvent)
    ensures KeepsHistory(st, Audited(st, k, e))
  {
    hide NextRow;
  }

  lemma ChangeKeepsHistory(st: State, before: map<Id, Claim>, actor: Actor, k: Id, c: Id, now: int)
    requires actor.Member(k) && c in before && c in st.claims
    ensures KeepsHistory(st, AuditedIfChanged(st, before, actor, k, c, now))
  {
    hide Audited, StatusEvent;
    AuditKeepsHistory(st, k, StatusEvent(before, st.claims, actor, k, c, now));
  }

  lemma RulingKeepsHistory(st: State, k: Id, row: DecisionRecord)
    ensures var next := DecisionLogged(st, k, row); KeepsHistory(st.(decisions := next.decisions), next)
    ensures DecisionLogged(st, k, row).decisions == st.decisions[k := st.DecisionsOf(k) + [NextRow(st.DecisionsOf(k), |st.DecisionsOf(k)|, row)]]
  {
    hide NextRow;
  }

  lemma FlagKeepsHistory(st: State, actor: Actor, k: Id, id: Id, input: NewConflict, now: int)
    requires FlagRefusal(st, actor, k, input).None?
    ensures KeepsHistory(st.(conflicts := st.conflicts[id := ConflictOpened(k, input, now)]), Flagged(st, actor, k, id, input, now))
  {
    hide Settled, Audited, StatusEvent, Event, Touched, ConflictOpened;
    var conflicts := st.conflicts[id := ConflictOpened(k, input, now)];
    var claims := Settled(conflicts, Touched(Touched(st.claims, input.a, actor.name, now), input.b, actor.name, now));
    var s0 := st.(conflicts := conflicts, claims := claims);
    var e1 := StatusEvent(st.claims, claims, actor, k, input.a, now);
    var e2 := StatusEvent(st.claims, claims, actor, k, input.b, now);
    AuditKeepsHistory(s0, k, e1);
    AuditKeepsHistory(Audited(s0, k, e1), k, e2);
    AuditKeepsHistory(Audited(Audited(s0, k, e1), k, e2), k, Event(actor, k, now, ConflictFlagged, OnConflict, id, true));
  }

  lemma RecordNamesConflict(st: State, before: State, actor: Actor, k: Id, input: Ruling, now: int)
    requires DecideRefusal(before, actor, k, input).None?
    requires st.claims.Keys == before.claims.Keys && st.conflicts.Keys == before.conflicts.Keys
    ensures var record := RecordOf(st, before, actor, k, input, now);
            NextRow(before.DecisionsOf(k), |before.DecisionsOf(k)|, record).content.conflictId == input.conflictId
  {
  }

  lemma DecideKeepsHistory(st: State, actor: Actor, k: Id, input: Ruling, now: int)
    requires DecideRefusal(st, actor, k, input).None?
    ensures var ruled, next := ConflictDecided(st.conflicts[input.conflictId], input), Decided(st, actor, k, input, now);
            KeepsHistory(st.(conflicts := st.conflicts[input.conflictId := ruled], decisions := next.decisions), next)
    ensures var log := Decided(st, actor, k, input, now).DecisionsOf(k);
      && |log| == |st.DecisionsOf(k)| + 1 && log[..|st.DecisionsOf(k)|] == st.DecisionsOf(k)
      && log[|st.DecisionsOf(k)|].content.conflictId == input.conflictId
    ensures forall j :: j != k ==> Decided(st, actor, k, input, now).DecisionsOf(j) == st.DecisionsOf(j)
  {
    hide Settled, Audited, AuditedIfChanged, StatusEvent, Event, Touched, ConflictDecided, RecordOf, DecisionLogged;
    var f := st.conflicts[input.conflictId];
    var conflicts := st.conflicts[input.conflictId := ConflictDecided(f, input)];
    var claims := Settled(conflicts, Touched(Touched(st.claims, f.a, actor.name, now), f.b, actor.name, now));
    var s0 := st.(conflicts := conflicts, claims := claims);
    ChangeKeepsHistory(s0, st.claims, actor, k, f.a, now);
    var s1 := AuditedIfChanged(s0, st.claims, actor, k, f.a, now);
    ChangeKeepsHistory(s1, st.claims, actor, k, f.b, now);
    var s2 := AuditedIfChanged(s1, st.claims, actor, k, f.b, now);
    RulingKeepsHistory(s2, k, RecordOf(s2, st, actor, k, input, now));
    RecordNamesConflict(s2, st, actor, k, input, now);
    AuditKeepsHistory(Ruled(s2, st, actor, k, input, now), k,
                      Event(actor, k, now, DecisionMade(input.decision), OnConflict, input.conflictId, false));
  }

  // ---- Runs ----

  ghost predicate Run(states: seq<State>, requests: seq<Request>)
  {
    && |states| == |requests| + 1
    && Valid(states[0])
    && forall i :: 0 <= i < |requests| ==> Next(states[i], requests[i], states[i + 1])
  }

  // In every reachable state the stored caches equal a full recomputation, the
  // approval flags tell the truth and every chain and lineage is intact.
  lemma {:induction false} EveryStateIsValid(states: seq<State>, requests: seq<Request>, n: nat)
    requires Run(states, requests) && n < |states|
    ensures Valid(states[n])
  {
    hide Valid, Next;
    if n > 0 {
      EveryStateIsValid(states, requests, n - 1);
      assert Next(states[n - 1], requests[n - 1], states[n]);
      NextIsGood(states[n - 1], requests[n - 1], states[n]);
    }
  }

  lemma AdvancesSelf(st: State)
    ensures Advances(st, st)
  {
  }

  lemma {:induction false} RunAdvances(states: seq<State>, requests: seq<Request>, i: nat, j: nat)
    requires Run(states, requests) && i <= j < |states|
    ensures Advances(states[i], states[j])
    decreases j
  {
    hide Valid, Next, Advances;
    if i == j {
      AdvancesSelf(states[i]);
    } else {
      RunAdvances(states, requests, i, j - 1);
      EveryStateIsValid(states, requests, j - 1);
      assert Next(states[j - 1], requests[j - 1], states[j]);
      NextIsGood(states[j - 1], requests[j - 1], states[j]);
      AdvancesTransitive(states[i], states[j - 1], states[j]);
    }
  }

  // A claim's status and eligibility, in any reachable state, are what all its
  // conflicts now say, although each operation recomputed at most two claims.
  lemma StoredCachesAreGlobal(states: seq<State>, requests: seq<Request>, n: nat, c: Id)
    requires Run(states, requests) && n < |states| && c in states[n].claims
    ensures var st := states[n];
      && st.claims[c].status == StatusOf(st.conflicts, c)
      && st.claims[c].eligibility == EligibilityOf(st.conflicts, c, st.claims[c])
      && (forall f :: f in Incident(st.conflicts, c) ==>
            Precedence(st.claims[c].status) <= Precedence(st.conflicts[f].DispositionOf(c)))
  {
    EveryStateIsValid(states, requests, n);
    var st := states[n];
    assert st.claims[c] == Recomputed(st.conflicts, c, st.claims[c]);
    StatusIsMostDecisive(st.conflicts, c);
  }

  // What a conflict must say for a claim of it to have a status.
  predicate AccountsFor(f: Conflict, c: Id, s: ClaimStatus)
  {
    match s
    case Rejected => f.status == SourceUnreliable
    case Superseded => f.status == if c == f.a then AcceptedB else AcceptedA
    case Disputed => f.status == Unresolved
    case EscalatedClaim => f.status == Escalated
    case Preserved => f.status == PreservedBoth
    case Supported => f.status == if c == f.a then AcceptedA else AcceptedB
    case Unreviewed => f.status == SourceUnreliable
  }

  lemma DispositionHasReason(claims: map<Id, Claim>, f: Conflict, c: Id)
    requires ConflictRooted(claims, f) && f.Touches(c)
    ensures AccountsFor(f, c, f.DispositionOf(c))
  {
  }

  // Every stored claim status has its reason in a decision now on record.
  lemma StatusHasReason(states: seq<State>, requests: seq<Request>, n: nat, c: Id)
    requires Run(states, requests) && n < |states| && c in states[n].claims
    requires states[n].claims[c].status != Unreviewed
    ensures exists f :: f in Incident(states[n].conflicts, c) && AccountsFor(states[n].conflicts[f], c, states[n].claims[c].status)
  {
    hide Run, StatusOf, AccountsFor, Coherent, RelatedStatuses;
    EveryStateIsValid(states, requests, n);
    var st := states[n];
    assert st.claims[c] == Recomputed(st.conflicts, c, st.claims[c]);
    StatusIsMostDecisive(st.conflicts, c);
    var f :| f in Incident(st.conflicts, c) && st.claims[c].status == st.conflicts[f].DispositionOf(c);
    assert ConflictRooted(st.claims, st.conflicts[f]);
    DispositionHasReason(st.claims, st.conflicts[f], c);
  }

  // A raised approval flag is the truth: the active revision is approved, it is
  // what the section row says, and the evidence still hashes to what was approved.
  lemma ApprovalFlagNeverLies(states: seq<State>, requests: seq<Request>, n: nat, s: Id)
    requires Run(states, requests) && n < |states| && s in states[n].sections
    requires states[n].sections[s].approvalCurrent
    ensures var st := states[n]; var section := st.sections[s];
      && section.active.Some? && section.active.value in st.revisions
      && var revision := st.revisions[section.active.value];
         && revision.content.approved && revision.content.snapshot == section.snapshot
         && revision.content.evidence == Some(EvidenceDigest(st, section.snapshot.cites))
  {
    EveryStateIsValid(states, requests, n);
    assert Honest(states[n], states[n].sections[s]);
  }

  // ---- An approval is never resurrected ----

  // A conflict row is bound into a digest when it touches an evidence claim.
  ghost predicate Binds(st: State, cites: seq<Id>, f: Id)
  {
    f in st.conflicts && exists c :: c in EvidenceOf(st.conflicts, cites) && c in st.claims && st.conflicts[f].Touches(c)
  }

  lemma DigestFixesIncident(st: State, next: State, c: Id)
    requires c in st.claims
    requires ClaimImageIn(st.sources, st.claims, st.conflicts, c)
             == ClaimImageIn(next.sources, next.claims, next.conflicts, c)
    ensures c in next.claims && next.claims[c].quoteState == st.claims[c].quoteState
    ensures Incident(next.conflicts, c) == Incident(st.conflicts, c)
    ensures forall f :: f in Incident(st.conflicts, c) ==> next.conflicts[f].version == st.conflicts[f].version
  {
    var ids, after := Sorted(Incident(st.conflicts, c)), Sorted(Incident(next.conflicts, c));
    SortedFacts(Incident(st.conflicts, c));
    SortedFacts(Incident(next.conflicts, c));
    var images := IncidentImages(st.conflicts, c);
    assert images == IncidentImages(next.conflicts, c);
    assert |ids| == |images| == |after|;
    forall i | 0 <= i < |ids|
      ensures ids[i] == after[i] && ids[i] in st.conflicts && ids[i] in next.conflicts
      ensures next.conflicts[ids[i]].version == st.conflicts[ids[i]].version
    {
      assert ids[i] in ids && after[i] in after;
      assert images[i] == ImageOfConflict(ids[i], st.conflicts[ids[i]]);
      assert IncidentImages(next.conflicts, c)[i] == ImageOfConflict(after[i], next.conflicts[after[i]]);
    }
    assert ids == after;
    forall f | f in Incident(st.conflicts, c) ensures next.conflicts[f].version == st.conflicts[f].version {
      assert ids[IndexOf(ids, f)] == f;
    }
  }

  // Equal digests, whatever the two citation lists, mean equal evidence.
  lemma EqualDigestsFixEvidence(st: State, cites: seq<Id>, next: State, later: seq<Id>, c: Id)
    requires EvidenceDigest(st, cites) == EvidenceDigest(next, later)
    requires c in EvidenceOf(st.conflicts, cites) && c in st.claims
    ensures c in next.claims && next.claims[c].quoteState == st.claims[c].quoteState
    ensures Incident(next.conflicts, c) == Incident(st.conflicts, c)
    ensures forall f :: f in Incident(st.conflicts, c) ==> next.conflicts[f].version == st.conflicts[f].version
  {
    var evidence := EvidenceOf(st.conflicts, cites);
    var i := IndexOf(evidence, c);
    assert EvidenceDigest(st, cites).evidence == EvidenceDigest(next, later).evidence;
    assert EvidenceDigest(st, cites).claims[i] == ClaimImageIn(st.sources, st.claims, st.conflicts, c);
    assert EvidenceDigest(next, later).claims[i] == ClaimImageIn(next.sources, next.claims, next.conflicts, c);
    DigestFixesIncident(st, next, c);
  }

  // Something the digest binds has moved on since: a bound conflict was decided
  // again, a bound claim gained a conflict, or a bound quote was attested.
  ghost predicate MovedOn(st: State, cites: seq<Id>, mid: State)
  {
    exists c :: c in EvidenceOf(st.conflicts, cites) && c in st.claims && ClaimMovedOn(st, mid, c)
  }

  ghost predicate ClaimMovedOn(st: State, mid: State, c: Id)
  {
    || (exists f :: f in Incident(st.conflicts, c) && f in mid.conflicts && mid.conflicts[f].version > st.conflicts[f].version)
    || (exists f :: f in Incident(mid.conflicts, c) && f !in st.conflicts)
    || (c in st.claims && c in mid.claims && st.claims[c].quoteState != mid.claims[c].quoteState)
  }

  lemma ClaimStaysMovedOn(st: State, mid: State, next: State, c: Id)
    requires Advances(st, mid) && Advances(mid, next) && c in st.claims && ClaimMovedOn(st, mid, c)
    ensures ClaimMovedOn(st, next, c)
  {
    if f :| f in Incident(st.conflicts, c) && f in mid.conflicts && mid.conflicts[f].version > st.conflicts[f].version {
      assert ConflictAdvances(mid.conflicts[f], next.conflicts[f]);
      assert f in next.conflicts && next.conflicts[f].version > st.conflicts[f].version;
    } else if f :| f in Incident(mid.conflicts, c) && f !in st.conflicts {
      assert ConflictAdvances(mid.conflicts[f], next.conflicts[f]);
      assert f in Incident(next.conflicts, c);
    } else {
      assert ClaimAdvances(st.claims[c], mid.claims[c]) && ClaimAdvances(mid.claims[c], next.claims[c]);
    }
  }

  lemma MovedOnChangesDigest(st: State, cites: seq<Id>, next: State, later: seq<Id>)
    requires MovedOn(st, cites, next)
    ensures EvidenceDigest(next, later) != EvidenceDigest(st, cites)
  {
    if EvidenceDigest(next, later) == EvidenceDigest(st, cites) {
      var c :| c in EvidenceOf(st.conflicts, cites) && c in st.claims && ClaimMovedOn(st, next, c);
      EqualDigestsFixEvidence(st, cites, next, later, c);
    }
  }

  // Once evidence bound into an approval has moved on, no later state of any
  // run yields that digest again, for these or any other citations.
  lemma ApprovalNeverResurrected(states: seq<State>, requests: seq<Request>, i: nat, m: nat, n: nat,
                                 cites: seq<Id>, later: seq<Id>)
    requires Run(states, requests) && i <= m <= n < |states|
    requires MovedOn(states[i], cites, states[m])
    ensures EvidenceDigest(states[n], later) != EvidenceDigest(states[i], cites)
  {
    hide EvidenceDigest, Run, Advances, ClaimMovedOn;
    RunAdvances(states, requests, i, m);
    RunAdvances(states, requests, m, n);
    var c :| c in EvidenceOf(states[i].conflicts, cites) && c in states[i].claims && ClaimMovedOn(states[i], states[m], c);
    ClaimStaysMovedOn(states[i], states[m], states[n], c);
    MovedOnChangesDigest(states[i], cites, states[n], later);
  }

  // Deciding a bound conflict again is such a move.
  lemma DecidingMovesOn(st: State, cites: seq<Id>, actor: Actor, caseId: Id, input: Ruling, now: int)
    requires DecideRefusal(st, actor, caseId, input).None? && Binds(st, cites, input.conflictId)
    ensures MovedOn(st, cites, Decided(st, actor, caseId, input, now))
  {
    var next := Decided(st, actor, caseId, input, now);
    var f := input.conflictId;
    var c :| c in EvidenceOf(st.conflicts, cites) && c in st.claims && st.conflicts[f].Touches(c);
    assert next.conflicts[f] == ConflictDecided(st.conflicts[f], input);
    assert f in Incident(st.conflicts, c);
    assert ClaimMovedOn(st, next, c);
  }

  // So is flagging a new conflict on an evidence claim.
  lemma FlaggingMovesOn(st: State, cites: seq<Id>, actor: Actor, caseId: Id, id: Id, input: NewConflict, now: int)
    requires FlagRefusal(st, actor, caseId, input).None? && id !in st.conflicts
    requires input.a in EvidenceOf(st.conflicts, cites) || input.b in EvidenceOf(st.conflicts, cites)
    ensures MovedOn(st, cites, Flagged(st, actor, caseId, id, input, now))
  {
    var next := Flagged(st, actor, caseId, id, input, now);
    var c := if input.a in EvidenceOf(st.conflicts, cites) then input.a else input.b;
    assert next.conflicts[id] == ConflictOpened(caseId, input, now);
    assert id in Incident(next.conflicts, c);
    assert ClaimMovedOn(st, next, c);
  }

  // And so is attesting a quote of an evidence claim.
  lemma AttestingMovesOn(st: State, cites: seq<Id>, actor: Actor, caseId: Id, claim: Id, now: int)
    requires AttestRefusal(st, actor, caseId, claim).None? && claim in EvidenceOf(st.conflicts, cites)
    ensures MovedOn(st, cites, Attested(st, actor, caseId, claim, now))
  {
    var next := Attested(st, actor, caseId, claim, now);
    SettledFacts(st.conflicts, st.claims[claim := st.claims[claim].(quoteState := ManuallyVerified, updatedAt := now)], claim);
    assert next.claims[claim].quoteState == ManuallyVerified;
    assert ClaimMovedOn(st, next, claim);
  }
}
