// Every operation keeps the invariant, stays inside its matter and leaves at
// least one audit event behind.

module Preservation {
  import opened Basics
  import opened Domain
  import opened Chains
  import opened Evidence
  import opened Lineage
  import opened Steps
  import opened Soundness

  // ---- Local recomputation equals global recomputation ----

  lemma SettledFacts(conflicts: map<Id, Conflict>, claims: map<Id, Claim>, c: Id)
    requires c in claims
    ensures var r := Settled(conflicts, claims)[c];
      && SameIdentity(claims[c], r) && r.quoteState == claims[c].quoteState
      && r == Recomputed(conflicts, c, r) && r == Recomputed(conflicts, c, claims[c])
  {
  }

  // Writing one conflict row leaves the caches of every claim it does not touch.
  lemma UntouchedCacheStands(conflicts: map<Id, Conflict>, id: Id, row: Conflict, c: Id, claim: Claim)
    requires !row.Touches(c) && (id in conflicts ==> !conflicts[id].Touches(c))
    ensures Recomputed(conflicts[id := row], c, claim) == Recomputed(conflicts, c, claim)
  {
    var after := conflicts[id := row];
    forall f ensures f in Incident(after, c) <==> f in Incident(conflicts, c) {
    }
    RecomputedFrame(after, conflicts, c, claim);
  }

  // ---- Assembling a step from its parts ----

  ghost predicate AllWithdrawn(st: State, k: Id)
  {
    forall s :: s in st.sections && st.sections[s].caseId == k ==> !st.sections[s].approvalCurrent
  }

  ghost predicate Pending(base: State, st: State, k: Id)
  {
    Sound(st) && StepIn(base, st, k)
  }

  // What every completed operation has done.
  ghost predicate GoodStep(st: State, next: State, k: Id)
  {
    Valid(next) && StepIn(st, next, k) && |next.AuditOf(k)| > |st.AuditOf(k)|
  }

  lemma AuditedPending(base: State, st: State, k: Id, event: AuditEvent)
    requires Pending(base, st, k)
    ensures Pending(base, Audited(st, k, event), k)
    ensures event.subject in {OnClaim, OnConflict, OnSource} || AllWithdrawn(st, k) ==>
              AllWithdrawn(Audited(st, k, event), k)
    ensures |Audited(st, k, event).AuditOf(k)| > |base.AuditOf(k)|
  {
    hide Sound, Withdrawn, ElsewhereSame;
    AuditedSound(st, k, event);
    AuditedStep(st, k, event);
    StepInTransitive(base, st, Audited(st, k, event), k);
    WithdrawnFacts(st.sections, k, event);
    assert base.AuditOf(k) <= st.AuditOf(k);
  }

  // Evidence rows changed, sections and revisions did not.
  lemma EvidenceCoreSound(st: State, next: State)
    requires Sound(st)
    requires next.sections == st.sections && next.revisions == st.revisions
    requires ClaimsRooted(next) && ConflictsRooted(next) && CachesAgree(next) && LogsLinked(next)
    requires forall c :: c in st.claims ==> c in next.claims && SameIdentity(st.claims[c], next.claims[c])
    ensures Sound(next)
  {
    hide ConflictRooted, Recomputed, Linked;
    forall s | s in next.sections ensures CitesKnown(next.claims, next.sections[s]) {
      assert CitesKnown(st.claims, st.sections[s]);
    }
    assert LinesKept(next) by {
      LinesIgnoreFlags(st, next);
    }
  }

  // No row of an upload changes or goes away.
  ghost predicate RowsKept(st: State, next: State)
  {
    && (forall s :: s in st.sources ==> s in next.sources && next.sources[s] == st.sources[s])
    && (forall r :: r in st.runs ==> r in next.runs && next.runs[r] == st.runs[r])
    && (forall p :: p in st.pages ==> p in next.pages && next.pages[p] == st.pages[p])
  }

  // ... and only rows of matter k moved, forward.
  lemma EvidenceCoreStep(st: State, next: State, k: Id)
    requires next.sections == st.sections && next.revisions == st.revisions && next.audit == st.audit
    requires next.decisions == st.decisions && RowsKept(st, next)
    requires forall c :: c in st.claims ==> c in next.claims && ClaimAdvances(st.claims[c], next.claims[c])
    requires forall c :: c in next.claims ==>
               next.claims[c].caseId == k || (c in st.claims && next.claims[c] == st.claims[c])
    requires forall f :: f in st.conflicts ==> f in next.conflicts && ConflictAdvances(st.conflicts[f], next.conflicts[f])
    requires forall f :: f in next.conflicts ==>
               next.conflicts[f].caseId == k || (f in st.conflicts && next.conflicts[f] == st.conflicts[f])
    ensures StepIn(st, next, k)
  {
    hide Advances, ElsewhereSame;
    assert Advances(st, next) by { CoreAdvances(st, next); }
    assert ElsewhereSame(st, next, k) by { CoreElsewhere(st, next, k); }
  }

  lemma CoreAdvances(st: State, next: State)
    requires next.revisions == st.revisions && next.audit == st.audit && next.decisions == st.decisions
    requires RowsKept(st, next)
    requires forall c :: c in st.claims ==> c in next.claims && ClaimAdvances(st.claims[c], next.claims[c])
    requires forall f :: f in st.conflicts ==> f in next.conflicts && ConflictAdvances(st.conflicts[f], next.conflicts[f])
    ensures Advances(st, next)
  {
    hide ClaimAdvances, ConflictAdvances;
  }

  lemma CoreElsewhere(st: State, next: State, k: Id)
    requires next.sections == st.sections && next.audit == st.audit && next.decisions == st.decisions
    requires forall c :: c in st.claims ==> c in next.claims && ClaimAdvances(st.claims[c], next.claims[c])
    requires forall c :: c in next.claims ==>
               next.claims[c].caseId == k || (c in st.claims && next.claims[c] == st.claims[c])
    requires forall f :: f in st.conflicts ==> f in next.conflicts && ConflictAdvances(st.conflicts[f], next.conflicts[f])
    requires forall f :: f in next.conflicts ==>
               next.conflicts[f].caseId == k || (f in st.conflicts && next.conflicts[f] == st.conflicts[f])
    ensures ElsewhereSame(st, next, k)
  {
  }

  // ---- Sources ----

  lemma SourceCore(st: State, caseId: Id, id: Id, upload: Upload, now: int)
    requires Sound(st) && id !in st.sources && upload.runId !in st.runs && upload.pages.Keys !! st.pages.Keys
    ensures Pending(st, Ingested(st, caseId, id, upload, now), caseId)
  {
    hide ConflictRooted, Recomputed, Line, Linked, CitesKnown, LineFor, StepIn;
    var core := Ingested(st, caseId, id, upload, now);
    EvidenceCoreStep(st, core, caseId);
    assert CachesAgree(core) && ConflictsRooted(core) && LogsLinked(core);
    EvidenceCoreSound(st, core);
  }

  lemma SourceIngestKeeps(st: State, actor: Actor, caseId: Id, id: Id, upload: Upload, now: int)
    requires Valid(st) && id !in st.sources && upload.runId !in st.runs && upload.pages.Keys !! st.pages.Keys
    requires SourceRefusal(actor, caseId, upload.privilege).None?
    ensures GoodStep(st, SourceIngest(st, actor, caseId, id, upload, now), caseId)
  {
    hide Pending, GoodStep, Sound, ApprovalsHonest, Ingested;
    SourceCore(st, caseId, id, upload, now);
    FinishEvidence(st, Ingested(st, caseId, id, upload, now), caseId,
                   Event(actor, caseId, now, SourceIngested, OnSource, id, false));
  }

  // The last event of an evidence step.
  lemma FinishEvidence(st: State, core: State, k: Id, event: AuditEvent)
    requires Valid(st) && Pending(st, core, k)
    requires event.subject in {OnClaim, OnConflict, OnSource}
    ensures GoodStep(st, Audited(core, k, event), k)
  {
    hide Sound, ApprovalsHonest, Advances, ElsewhereSame, Audited;
    AuditedPending(st, core, k, event);
    HonestAfterEvidence(st, Audited(core, k, event), k);
  }

  // ---- Claims ----

  lemma NewClaimCache(st: State, id: Id, input: NewClaim, now: int)
    requires ConflictsRooted(st) && id !in st.claims
    requires input.sourceId in st.sources
    requires EvaluateQuote(PageCited(st, input), input.found, input.minOcrPercent).Some?
    ensures ClaimCreated(st, id, input, now) == Recomputed(st.conflicts, id, ClaimCreated(st, id, input, now))
  {
    assert Incident(st.conflicts, id) == {} by {
      forall f | f in st.conflicts ensures !st.conflicts[f].Touches(id) {
        assert ConflictRooted(st.claims, st.conflicts[f]);
      }
    }
    StatusIsMostDecisive(st.conflicts, id);
    assert RelatedStatuses(st.conflicts, id) == {};
  }

  lemma ClaimCore(st: State, id: Id, claim: Claim)
    requires Sound(st) && id !in st.claims
    requires claim == Recomputed(st.conflicts, id, claim)
    requires claim.sourceId in st.sources && st.sources[claim.sourceId].caseId == claim.caseId
    requires st.sources[claim.sourceId].privilege == claim.privilege
    ensures Pending(st, st.(claims := st.claims[id := claim]), claim.caseId)
  {
    hide Recomputed, Line, Linked, CitesKnown, LineFor, StepIn;
    var core := st.(claims := st.claims[id := claim]);
    EvidenceCoreStep(st, core, claim.caseId);
    forall f | f in core.conflicts ensures ConflictRooted(core.claims, core.conflicts[f]) {
      assert ConflictRooted(st.claims, st.conflicts[f]);
    }
    EvidenceCoreSound(st, core);
  }

  lemma ClaimExtractKeeps(st: State, actor: Actor, caseId: Id, id: Id, input: NewClaim, now: int)
    requires Valid(st) && id !in st.claims
    requires ClaimRefusal(st, actor, caseId, input).None?
    ensures GoodStep(st, ClaimExtract(st, actor, caseId, id, input, now), caseId)
  {
    hide Pending, GoodStep, CachesAgree, ClaimsRooted, LinesKept, ApprovalsHonest;
    var claim := ClaimCreated(st, id, input, now);
    NewClaimCache(st, id, input, now);
    ClaimCore(st, id, claim);
    FinishEvidence(st, st.(claims := st.claims[id := claim]), caseId,
                   Event(actor, caseId, now, ClaimExtracted, OnClaim, id, false));
  }

  // ---- Flags and decisions: one conflict row and the two claims it joins ----

  function TouchedPair(claims: map<Id, Claim>, a: Id, b: Id, reviewer: string, now: int): map<Id, Claim>
    requires a in claims && b in claims
  {
    Touched(Touched(claims, a, reviewer, now), b, reviewer, now)
  }

  // After one conflict row is written and everything is recomputed, only the
  // two claims of that conflict have changed, and their identities have not.
  lemma PairRecomputed(st: State, id: Id, row: Conflict, reviewer: string, now: int, c: Id)
    requires CachesAgree(st) && row.a in st.claims && row.b in st.claims && c in st.claims
    requires id in st.conflicts ==> st.conflicts[id].a == row.a && st.conflicts[id].b == row.b
    ensures var claims := Settled(st.conflicts[id := row], TouchedPair(st.claims, row.a, row.b, reviewer, now));
      && SameIdentity(st.claims[c], claims[c]) && claims[c].quoteState == st.claims[c].quoteState
      && claims[c] == Recomputed(st.conflicts[id := row], c, claims[c])
      && (c != row.a && c != row.b ==> claims[c] == st.claims[c])
  {
    var touched := TouchedPair(st.claims, row.a, row.b, reviewer, now);
    SettledFacts(st.conflicts[id := row], touched, c);
    if c != row.a && c != row.b {
      UntouchedCacheStands(st.conflicts, id, row, c, st.claims[c]);
    }
  }

  lemma PairCore(st: State, core: State, k: Id, id: Id, row: Conflict, reviewer: string, now: int)
    requires Sound(st) && row.caseId == k
    requires ConflictRooted(st.claims, row)
    requires id in st.conflicts ==> ConflictAdvances(st.conflicts[id], row)
    requires core == st.(conflicts := st.conflicts[id := row],
                         claims := Settled(st.conflicts[id := row], TouchedPair(st.claims, row.a, row.b, reviewer, now)))
    ensures Pending(st, core, k)
  {
    hide Recomputed, Line, Linked, CitesKnown, LineFor, Settled, Touched, Coherent, StepIn;
    forall c | c in st.claims
      ensures SameIdentity(st.claims[c], core.claims[c]) && ClaimAdvances(st.claims[c], core.claims[c])
      ensures core.claims[c] == Recomputed(core.conflicts, c, core.claims[c])
      ensures core.claims[c].caseId == k || core.claims[c] == st.claims[c]
    {
      PairRecomputed(st, id, row, reviewer, now, c);
    }
    EvidenceCoreStep(st, core, k);
    PairCoreSound(st, core, id, row);
  }

  lemma PairCoreSound(st: State, core: State, id: Id, row: Conflict)
    requires Sound(st) && ConflictRooted(st.claims, row)
    requires core == st.(conflicts := st.conflicts[id := row], claims := core.claims)
    requires core.claims.Keys == st.claims.Keys && CachesAgree(core)
    requires forall c :: c in st.claims ==> SameIdentity(st.claims[c], core.claims[c])
    ensures Sound(core)
  {
    hide Recomputed, Line, Linked, CitesKnown, LineFor, Coherent;
    forall f | f in core.conflicts ensures ConflictRooted(core.claims, core.conflicts[f]) {
      assert f == id || ConflictRooted(st.claims, st.conflicts[f]);
    }
    EvidenceCoreSound(st, core);
  }

  lemma FlaggedKeeps(st: State, actor: Actor, caseId: Id, id: Id, input: NewConflict, now: int)
    requires Valid(st) && id !in st.conflicts
    requires FlagRefusal(st, actor, caseId, input).None?
    ensures GoodStep(st, Flagged(st, actor, caseId, id, input, now), caseId)
  {
    hide Sound, StepIn, GoodStep, ApprovalsHonest, Audited, AllWithdrawn, Recomputed, Settled, Touched;
    var row := ConflictOpened(caseId, input, now);
    var conflicts := st.conflicts[id := row];
    var claims := Settled(conflicts, TouchedPair(st.claims, input.a, input.b, actor.name, now));
    var s0 := st.(conflicts := conflicts, claims := claims);
    PairCore(st, s0, caseId, id, row, actor.name, now);
    var eventA := StatusEvent(st.claims, claims, actor, caseId, input.a, now);
    AuditedPending(st, s0, caseId, eventA);
    var s1 := Audited(s0, caseId, eventA);
    var eventB := StatusEvent(st.claims, claims, actor, caseId, input.b, now);
    AuditedPending(st, s1, caseId, eventB);
    FinishEvidence(st, Audited(s1, caseId, eventB), caseId,
                   Event(actor, caseId, now, ConflictFlagged, OnConflict, id, true));
  }

  lemma AuditedIfChangedPending(base: State, st: State, before: map<Id, Claim>, actor: Actor, caseId: Id, id: Id,
                                now: int)
    requires Pending(base, st, caseId) && actor.Member(caseId) && id in before && id in st.claims
    ensures Pending(base, AuditedIfChanged(st, before, actor, caseId, id, now), caseId)
  {
    hide Sound, StepIn, Audited, AllWithdrawn;
    AuditedPending(base, st, caseId, StatusEvent(before, st.claims, actor, caseId, id, now));
  }

  lemma DecisionLoggedStep(st: State, caseId: Id, record: DecisionRecord)
    ensures StepIn(st, DecisionLogged(st, caseId, record), caseId)
  {
    hide Advances, ElsewhereSame;
    assert Advances(st, DecisionLogged(st, caseId, record)) by { DecisionLoggedAdvances(st, caseId, record); }
    assert ElsewhereSame(st, DecisionLogged(st, caseId, record), caseId) by { DecisionLoggedElsewhere(st, caseId, record); }
  }

  lemma DecisionLoggedAdvances(st: State, caseId: Id, record: DecisionRecord)
    ensures Advances(st, DecisionLogged(st, caseId, record))
  {
    hide NextRow;
  }

  lemma DecisionLoggedElsewhere(st: State, caseId: Id, record: DecisionRecord)
    ensures ElsewhereSame(st, DecisionLogged(st, caseId, record), caseId)
  {
    hide NextRow;
  }

  lemma DecisionLoggedPending(base: State, st: State, caseId: Id, record: DecisionRecord)
    requires Pending(base, st, caseId)
    ensures Pending(base, DecisionLogged(st, caseId, record), caseId)
  {
    hide ConflictRooted, Recomputed, Line, CitesKnown, LineFor, StepIn;
    var next := DecisionLogged(st, caseId, record);
    DecisionLoggedStep(st, caseId, record);
    StepInTransitive(base, st, next, caseId);
    var log := st.DecisionsOf(caseId);
    AppendStaysLinked(log, |log|, record);
    EvidenceCoreSound(st, next);
  }

  lemma DecidedKeeps(st: State, actor: Actor, caseId: Id, input: Ruling, now: int)
    requires Valid(st) && DecideRefusal(st, actor, caseId, input).None?
    ensures GoodStep(st, Decided(st, actor, caseId, input, now), caseId)
  {
    hide Pending, StepIn, GoodStep, ApprovalsHonest, Audited, AllWithdrawn, Recomputed, Settled, Touched,
         DecisionLogged,
         AuditedIfChanged, CachesAgree, ClaimsRooted, SectionsRooted, LinesKept, LogsLinked;
    var f := st.conflicts[input.conflictId];
    var row := ConflictDecided(f, input);
    assert ConflictRooted(st.claims, f);
    TransitionsAreCoherent(input.decision, input.selected, f.a);
    var conflicts := st.conflicts[input.conflictId := row];
    var claims := Settled(conflicts, TouchedPair(st.claims, f.a, f.b, actor.name, now));
    var s0 := st.(conflicts := conflicts, claims := claims);
    PairCore(st, s0, caseId, input.conflictId, row, actor.name, now);
    AuditedIfChangedPending(st, s0, st.claims, actor, caseId, f.a, now);
    var s1 := AuditedIfChanged(s0, st.claims, actor, caseId, f.a, now);
    AuditedIfChangedPending(st, s1, st.claims, actor, caseId, f.b, now);
    var s2 := AuditedIfChanged(s1, st.claims, actor, caseId, f.b, now);
    DecisionLoggedPending(st, s2, caseId, RecordOf(s2, st, actor, caseId, input, now));
    FinishEvidence(st, Ruled(s2, st, actor, caseId, input, now), caseId,
                   Event(actor, caseId, now, DecisionMade(input.decision), OnConflict, input.conflictId, false));
  }

  // ---- Attestation ----

  lemma AttestCore(st: State, claim: Id, now: int)
    requires Sound(st) && claim in st.claims && st.claims[claim].quoteState == ManualRequired
    ensures var c := st.claims[claim].(quoteState := ManuallyVerified, updatedAt := now);
            Pending(st, st.(claims := Settled(st.conflicts, st.claims[claim := c])), st.claims[claim].caseId)
  {
    hide Recomputed, Line, Linked, CitesKnown, LineFor, StepIn, Coherent, Settled, LinesKept;
    var c := st.claims[claim].(quoteState := ManuallyVerified, updatedAt := now);
    var core := st.(claims := Settled(st.conflicts, st.claims[claim := c]));
    forall x | x in st.claims
      ensures SameIdentity(st.claims[x], core.claims[x]) && ClaimAdvances(st.claims[x], core.claims[x])
      ensures core.claims[x] == Recomputed(core.conflicts, x, core.claims[x])
      ensures x != claim ==> core.claims[x] == st.claims[x]
    {
      SettledFacts(st.conflicts, st.claims[claim := c], x);
    }
    EvidenceCoreStep(st, core, st.claims[claim].caseId);
    forall f | f in core.conflicts ensures ConflictRooted(core.claims, core.conflicts[f]) {
      assert ConflictRooted(st.claims, st.conflicts[f]);
    }
    EvidenceCoreSound(st, core);
  }

  lemma AttestedKeeps(st: State, actor: Actor, caseId: Id, claim: Id, now: int)
    requires Valid(st) && AttestRefusal(st, actor, caseId, claim).None?
    ensures GoodStep(st, Attested(st, actor, caseId, claim, now), caseId)
  {
    hide Pending, GoodStep, Sound, ApprovalsHonest, Settled;
    AttestCore(st, claim, now);
    var c := st.claims[claim].(quoteState := ManuallyVerified, updatedAt := now);
    FinishEvidence(st, st.(claims := Settled(st.conflicts, st.claims[claim := c])), caseId,
                   Event(actor, caseId, now, QuoteVerified, OnClaim, claim, true));
  }

  // ---- Report sections ----

  // The row a revision may be written for: new, or existing with its own history.
  predicate SectionRow(st: State, id: Id, section: Section)
  {
    if id in st.sections then section.active == st.sections[id].active && section.caseId == st.sections[id].caseId
    else section.active.None?
  }

  // The active revision is the tip, so the next one extends the line.
  lemma LineGrows(revisions: map<Id, Revision>, id: Id, section: Section, before: seq<Revision>, row: Revision)
    requires row.id !in revisions
    requires before == [] ==> section.active.None?
    requires before == [] ==> forall r :: r in revisions ==> revisions[r].content.sectionId != id
    requires before != [] ==> LineFor(revisions, id, section, before)
    requires row == NextRevision(if before == [] then None else Some(before[|before| - 1]), row.id, row.content)
    requires row.content.sectionId == id && row.content.caseId == section.caseId && row.content.parent == section.active
    requires row.content.contentHash == ExpectedContent(row)
    ensures LineFor(revisions[row.id := row], id, section.(active := Some(row.id)), before + [row])
  {
    AppendExtendsLine(before, row.id, row.content);
    hide Line;
    var path := before + [row];
    forall i, j | 0 <= i < j < |path| ensures path[i].id != path[j].id {
      if j == |before| { assert path[i].id in revisions; }
    }
  }

  lemma LineUndisturbed(revisions: map<Id, Revision>, id: Id, section: Section, path: seq<Revision>, row: Revision)
    requires LineFor(revisions, id, section, path)
    requires row.id !in revisions && row.content.sectionId != id
    ensures LineFor(revisions[row.id := row], id, section, path)
  {
    hide Line;
  }

  lemma RevisedOwnLine(st: State, id: Id, section: Section, revisionId: Id, actor: Actor, now: int,
                       reason: string, evidence: Option<Digest>, before: seq<Revision>)
    requires LinesKept(st) && SectionRow(st, id, section) && actor.Member(section.caseId)
    requires revisionId !in st.revisions
    requires if id in st.sections then LineFor(st.revisions, id, section, before) else before == []
    ensures var next := Revised(st, id, section, revisionId, actor, now, reason, evidence);
            LineFor(next.revisions, id, next.sections[id], before + [next.revisions[revisionId]])
  {
    hide Line;
    var row := RevisionOf(st, id, section, revisionId, actor, now, reason, evidence);
    if id !in st.sections {
      forall r | r in st.revisions ensures st.revisions[r].content.sectionId != id {
        assert st.revisions[r].content.sectionId in st.sections;
      }
    } else {
      assert section.active == Some(before[|before| - 1].id);
      assert st.revisions[before[|before| - 1].id] == before[|before| - 1];
    }
    LineGrows(st.revisions, id, section, before, row);
  }

  lemma LineForSameActive(revisions: map<Id, Revision>, id: Id, section: Section, other: Section, path: seq<Revision>)
    requires LineFor(revisions, id, section, path)
    requires other.active == section.active && other.caseId == section.caseId
    ensures LineFor(revisions, id, other, path)
  {
    hide Line;
  }

  lemma RevisedLines(st: State, id: Id, section: Section, revisionId: Id, actor: Actor, now: int,
                     reason: string, evidence: Option<Digest>)
    requires LinesKept(st) && SectionRow(st, id, section) && actor.Member(section.caseId)
    requires revisionId !in st.revisions
    ensures LinesKept(Revised(st, id, section, revisionId, actor, now, reason, evidence))
  {
    hide LineFor;
    var next := Revised(st, id, section, revisionId, actor, now, reason, evidence);
    var row := next.revisions[revisionId];
    forall s | s in next.sections ensures exists path :: LineFor(next.revisions, s, next.sections[s], path) {
      if s != id {
        var path :| LineFor(st.revisions, s, st.sections[s], path);
        LineUndisturbed(st.revisions, s, st.sections[s], path, row);
      } else {
        var before: seq<Revision> := [];
        if id in st.sections {
          before :| LineFor(st.revisions, id, st.sections[id], before);
          LineForSameActive(st.revisions, id, st.sections[id], section, before);
        }
        RevisedOwnLine(st, id, section, revisionId, actor, now, reason, evidence, before);
      }
    }
  }

  lemma RevisedPending(st: State, id: Id, section: Section, revisionId: Id, actor: Actor, now: int,
                       reason: string, evidence: Option<Digest>)
    requires Sound(st) && SectionRow(st, id, section) && actor.Member(section.caseId)
    requires revisionId !in st.revisions && CitesKnown(st.claims, section)
    ensures Pending(st, Revised(st, id, section, revisionId, actor, now, reason, evidence), section.caseId)
  {
    hide Recomputed, Line, Linked, LineFor, ConflictRooted, CitesKnown, StepIn;
    var next := Revised(st, id, section, revisionId, actor, now, reason, evidence);
    RevisedStep(st, id, section, revisionId, actor, now, reason, evidence);
    RevisedLines(st, id, section, revisionId, actor, now, reason, evidence);
    forall s | s in next.sections ensures CitesKnown(next.claims, next.sections[s]) {
      if s == id {
        CitesIgnoreActive(st.claims, section, next.sections[id]);
      }
    }
  }

  lemma CitesIgnoreActive(claims: map<Id, Claim>, section: Section, other: Section)
    requires CitesKnown(claims, section) && other == section.(active := other.active)
    ensures CitesKnown(claims, other)
  {
  }

  lemma RevisedStep(st: State, id: Id, section: Section, revisionId: Id, actor: Actor, now: int,
                    reason: string, evidence: Option<Digest>)
    requires SectionRow(st, id, section) && actor.Member(section.caseId) && revisionId !in st.revisions
    ensures StepIn(st, Revised(st, id, section, revisionId, actor, now, reason, evidence), section.caseId)
  {
    hide Advances, ElsewhereSame;
    var next := Revised(st, id, section, revisionId, actor, now, reason, evidence);
    assert Advances(st, next) by { RevisedAdvances(st, id, section, revisionId, actor, now, reason, evidence); }
    assert ElsewhereSame(st, next, section.caseId) by { RevisedElsewhere(st, id, section, revisionId, actor, now, reason, evidence); }
  }

  lemma RevisedAdvances(st: State, id: Id, section: Section, revisionId: Id, actor: Actor, now: int,
                        reason: string, evidence: Option<Digest>)
    requires actor.Member(section.caseId) && revisionId !in st.revisions
    ensures Advances(st, Revised(st, id, section, revisionId, actor, now, reason, evidence))
  {
    hide RevisionOf;
  }

  lemma RevisedElsewhere(st: State, id: Id, section: Section, revisionId: Id, actor: Actor, now: int,
                         reason: string, evidence: Option<Digest>)
    requires SectionRow(st, id, section) && actor.Member(section.caseId)
    ensures ElsewhereSame(st, Revised(st, id, section, revisionId, actor, now, reason, evidence), section.caseId)
  {
    hide RevisionOf;
  }

  // A section step: the evidence tables stand, so the other approvals do too.
  lemma HonestAfterSection(st: State, next: State, id: Id)
    requires ApprovalsHonest(st)
    requires next.sources == st.sources && next.claims == st.claims && next.conflicts == st.conflicts
    requires forall r :: r in st.revisions ==> r in next.revisions && next.revisions[r] == st.revisions[r]
    requires forall s :: s in next.sections && s != id ==> s in st.sections && next.sections[s] == st.sections[s]
    requires id in next.sections ==> Honest(next, next.sections[id])
    ensures ApprovalsHonest(next)
  {
    hide EvidenceDigest;
    forall cites ensures EvidenceDigest(next, cites) == EvidenceDigest(st, cites) {
      SameTablesSameDigest(st, next, cites);
    }
    forall s | s in next.sections ensures Honest(next, next.sections[s]) {
      if s != id { assert Honest(st, st.sections[s]); }
    }
  }

  lemma SameTablesSameDigest(st: State, next: State, cites: seq<Id>)
    requires next.sources == st.sources && next.claims == st.claims && next.conflicts == st.conflicts
    ensures EvidenceDigest(next, cites) == EvidenceDigest(st, cites)
  {
  }

  lemma FinishSection(st: State, id: Id, section: Section, revisionId: Id, actor: Actor, now: int,
                      reason: string, evidence: Option<Digest>, event: AuditEvent)
    requires Valid(st) && SectionRow(st, id, section) && actor.Member(section.caseId)
    requires revisionId !in st.revisions && CitesKnown(st.claims, section)
    requires event.subject == OnSection && event.subjectId == id
    requires event.action == SectionApproved ==> evidence == Some(EvidenceDigest(st, section.snapshot.cites))
    ensures GoodStep(st, Audited(Revised(st, id, section, revisionId, actor, now, reason, evidence), section.caseId, event),
                     section.caseId)
  {
    hide Sound, StepIn, EvidenceDigest, CitesKnown;
    var middle := Revised(st, id, section, revisionId, actor, now, reason, evidence);
    var next := Audited(middle, section.caseId, event);
    RevisedPending(st, id, section, revisionId, actor, now, reason, evidence);
    AuditedPending(st, middle, section.caseId, event);
    SameTablesSameDigest(st, next, section.snapshot.cites);
    HonestAfterSection(st, next, id);
  }

  lemma VisibleCitesKnown(st: State, actor: Actor, caseId: Id, snapshot: Snapshot, editing: Option<Id>,
                          section: Section)
    requires actor.Member(caseId) && SnapshotRefusal(st, actor, caseId, snapshot, editing).None?
    requires section.snapshot == snapshot && section.caseId == caseId
    ensures CitesKnown(st.claims, section)
  {
    forall i, j | 0 <= i < j < |snapshot.cites| ensures snapshot.cites[i] != snapshot.cites[j] {
      if snapshot.cites[i] == snapshot.cites[j] {
        var shorter := snapshot.cites[..j] + snapshot.cites[j + 1..];
        assert Elements(shorter) == Elements(snapshot.cites) by {
          forall x | x in snapshot.cites ensures x in shorter {
            var n := IndexOf(snapshot.cites, x);
            if n < j { assert shorter[n] == x; } else if n == j { assert shorter[i] == x; } else { assert shorter[n - 1] == x; }
          }
        }
        ElementsBound(shorter);
      }
    }
  }

  lemma {:induction false} ElementsBound(xs: seq<Id>)
    ensures |Elements(xs)| <= |xs|
  {
    if xs != [] {
      ElementsBound(xs[1..]);
      assert Elements(xs) == {xs[0]} + Elements(xs[1..]);
    }
  }

  lemma DraftedKeeps(st: State, actor: Actor, caseId: Id, id: Id, revisionId: Id, snapshot: Snapshot, now: int)
    requires Valid(st) && id !in st.sections && revisionId !in st.revisions
    requires DraftRefusal(st, actor, caseId, snapshot).None?
    ensures GoodStep(st, Drafted(st, actor, caseId, id, revisionId, snapshot, now), caseId)
  {
    hide Valid, GoodStep, CitesKnown, SnapshotRefusal;
    var section := Section(caseId, snapshot, NextPosition(st.sections, caseId, Sorted(st.sections.Keys)), None, 1, false);
    VisibleCitesKnown(st, actor, caseId, snapshot, None, section);
    FinishSection(st, id, section, revisionId, actor, now, "Initial draft.", None,
                  Event(actor, caseId, now, SectionDrafted, OnSection, id, false));
  }

  lemma RevisedSectionKeeps(st: State, actor: Actor, caseId: Id, id: Id, revisionId: Id,
                            expectedVersion: Option<nat>, snapshot: Snapshot, reason: string, now: int)
    requires Valid(st) && revisionId !in st.revisions
    requires ReviseRefusal(st, actor, caseId, id, expectedVersion, snapshot).None?
    ensures GoodStep(st, RevisedSection(st, actor, caseId, id, revisionId, expectedVersion, snapshot, reason, now), caseId)
  {
    hide Valid, GoodStep, CitesKnown, SnapshotRefusal, ImpactOf;
    var section := st.sections[id].(snapshot := snapshot, version := st.sections[id].version + 1);
    VisibleCitesKnown(st, actor, caseId, snapshot, Some(id), section);
    FinishSection(st, id, section, revisionId, actor, now, reason, None,
                  Event(actor, caseId, now, SectionRevised, OnSection, id,
                        ImpactOf(st, st.sections[id].snapshot.cites).status != ImpactOf(st, snapshot.cites).status));
  }

  lemma ApprovedKeeps(st: State, actor: Actor, caseId: Id, id: Id, revisionId: Id, expectedVersion: Option<nat>,
                      now: int)
    requires Valid(st) && revisionId !in st.revisions
    requires ApproveRefusal(st, actor, caseId, id, expectedVersion).None?
    ensures GoodStep(st, Approved(st, actor, caseId, id, revisionId, expectedVersion, now), caseId)
  {
    hide GoodStep, ImpactOf, ApprovalsHonest, ClaimsRooted, ConflictsRooted, CachesAgree, LinesKept, LogsLinked,
         EvidenceDigest;
    var section := st.sections[id].(version := st.sections[id].version + 1, approvalCurrent := true);
    assert CitesKnown(st.claims, st.sections[id]);
    FinishSection(st, id, section, revisionId, actor, now, "Approved complete rendered section for production.",
                  Some(EvidenceDigest(st, section.snapshot.cites)),
                  Event(actor, caseId, now, SectionApproved, OnSection, id, false));
  }

  lemma ExportedKeeps(st: State, actor: Actor, caseId: Id, packetId: Id, now: int)
    requires Valid(st) && actor.Member(caseId)
    ensures GoodStep(st, Exported(st, actor, caseId, packetId, now), caseId)
  {
    hide Sound, StepIn, Withdrawn, Honest;
    var event := Event(actor, caseId, now, PacketGenerated, OnExport, packetId, false);
    assert StepIn(st, st, caseId) by { SelfStep(st, caseId); }
    AuditedPending(st, st, caseId, event);
    WithdrawnFacts(st.sections, caseId, event);
    var next := Audited(st, caseId, event);
    forall s | s in next.sections ensures Honest(next, next.sections[s]) {
      assert Honest(st, st.sections[s]);
      HonestIgnoresLogs(st, next, st.sections[s]);
    }
  }

  lemma SelfStep(st: State, k: Id)
    ensures StepIn(st, st, k)
  {
  }

  lemma HonestIgnoresLogs(st: State, next: State, section: Section)
    requires next == st.(audit := next.audit) && Honest(st, section)
    ensures Honest(next, section)
  {
    hide EvidenceDigest;
    SameTablesSameDigest(st, next, section.snapshot.cites);
  }
}
