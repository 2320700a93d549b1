// The two unique indexes over evidence rows: a pair of claims has at most one
// open conflict, and a paragraph reference names at most one section of a matter.

module Indexes {
  import opened Basics
  import opened Domain
  import opened Evidence
  import opened Steps
  import opened Soundness
  import opened Runs

  predicate OpenTogether(conflicts: map<Id, Conflict>, f: Id, g: Id)
    requires f in conflicts && g in conflicts
  {
    && conflicts[f].caseId == conflicts[g].caseId && SamePair(conflicts[f], conflicts[g].a, conflicts[g].b)
    && OpenStatus(conflicts[f].status) && OpenStatus(conflicts[g].status)
  }

  ghost predicate OneOpenPerPair(conflicts: map<Id, Conflict>)
  {
    forall f, g :: f in conflicts && g in conflicts && OpenTogether(conflicts, f, g) ==> f == g
  }

  predicate SameReference(sections: map<Id, Section>, s: Id, t: Id)
    requires s in sections && t in sections
  {
    sections[s].caseId == sections[t].caseId && sections[s].snapshot.paragraphRef == sections[t].snapshot.paragraphRef
  }

  ghost predicate ReferencesUnique(sections: map<Id, Section>)
  {
    forall s, t :: s in sections && t in sections && SameReference(sections, s, t) ==> s == t
  }

  ghost predicate IndexesHold(st: State) { OneOpenPerPair(st.conflicts) && ReferencesUnique(st.sections) }

  lemma EmptyHolds()
    ensures IndexesHold(EMPTY)
  {
  }

  // ---- What each command does to the indexed columns ----

  lemma ClashIsListed(conflicts: map<Id, Conflict>, id: Id, f: Conflict, g: Id)
    requires g in conflicts && g != id
    requires OpenTogether(conflicts[id := f], g, id) || OpenTogether(conflicts[id := f], id, g)
    ensures OpenStatus(f.status) && g in OpenPairs(conflicts, f.caseId, f.a, f.b)
  {
  }

  lemma OpeningKeeps(conflicts: map<Id, Conflict>, id: Id, f: Conflict)
    requires OneOpenPerPair(conflicts)
    requires OpenStatus(f.status) ==> forall g :: g in OpenPairs(conflicts, f.caseId, f.a, f.b) ==> g == id
    ensures OneOpenPerPair(conflicts[id := f])
  {
    var after := conflicts[id := f];
    forall g, h | g in after && h in after && OpenTogether(after, g, h) ensures g == h {
      if g != id && h != id {
        assert OpenTogether(conflicts, g, h);
      } else if g != id {
        ClashIsListed(conflicts, id, f, g);
      } else if h != id {
        ClashIsListed(conflicts, id, f, h);
      }
    }
  }

  lemma HolderIsListed(sections: map<Id, Section>, id: Id, section: Section, s: Id)
    requires s in sections && s != id
    requires SameReference(sections[id := section], s, id) || SameReference(sections[id := section], id, s)
    ensures s in Holders(sections, section.caseId, section.snapshot.paragraphRef, Some(id))
  {
  }

  lemma WritingKeeps(sections: map<Id, Section>, id: Id, section: Section)
    requires ReferencesUnique(sections) && Holders(sections, section.caseId, section.snapshot.paragraphRef, Some(id)) == {}
    ensures ReferencesUnique(sections[id := section])
  {
    var after := sections[id := section];
    forall s, t | s in after && t in after && SameReference(after, s, t) ensures s == t {
      if s != id && t != id {
        assert SameReference(sections, s, t);
      } else if s != id {
        HolderIsListed(sections, id, section, s);
      } else if t != id {
        HolderIsListed(sections, id, section, t);
      }
    }
  }

  lemma TextsKeep(before: map<Id, Section>, after: map<Id, Section>)
    requires ReferencesUnique(before) && SameTexts(before, after)
    ensures ReferencesUnique(after)
  {
    forall s, t | s in after && t in after && SameReference(after, s, t) ensures s == t {
      assert SameReference(before, s, t);
    }
  }

  lemma HistoryKeeps(st: State, next: State)
    requires IndexesHold(st) && KeepsHistory(st, next)
    ensures IndexesHold(next)
  {
    hide SameTexts, ReferencesUnique, OneOpenPerPair;
    TextsKeep(st.sections, next.sections);
  }

  lemma FlagKeeps(st: State, actor: Actor, k: Id, id: Id, input: NewConflict, now: int)
    requires IndexesHold(st) && FlagRefusal(st, actor, k, input).None?
    ensures IndexesHold(Flagged(st, actor, k, id, input, now))
  {
    hide Flagged, KeepsHistory, OneOpenPerPair, ReferencesUnique, ClaimSeen;
    var flagged := ConflictOpened(k, input, now);
    assert OpenPairs(st.conflicts, k, input.a, input.b) == {};
    OpeningKeeps(st.conflicts, id, flagged);
    FlagKeepsHistory(st, actor, k, id, input, now);
    HistoryKeeps(st.(conflicts := st.conflicts[id := flagged]), Flagged(st, actor, k, id, input, now));
  }

  lemma DecideKeeps(st: State, actor: Actor, k: Id, input: Ruling, now: int)
    requires IndexesHold(st) && DecideRefusal(st, actor, k, input).None?
    ensures IndexesHold(Decided(st, actor, k, input, now))
  {
    hide Decided, KeepsHistory, OneOpenPerPair, ReferencesUnique;
    var ruled := ConflictDecided(st.conflicts[input.conflictId], input);
    if OpenStatus(ruled.status) {
      forall g | g in OpenPairs(st.conflicts, k, ruled.a, ruled.b) ensures g == input.conflictId {
        assert g in OpenPairs(st.conflicts, k, ruled.a, ruled.b) - {input.conflictId} || g == input.conflictId;
      }
    }
    OpeningKeeps(st.conflicts, input.conflictId, ruled);
    DecideKeepsHistory(st, actor, k, input, now);
    var next := Decided(st, actor, k, input, now);
    HistoryKeeps(st.(conflicts := st.conflicts[input.conflictId := ruled], decisions := next.decisions), next);
  }

  lemma UntakenReference(st: State, actor: Actor, k: Id, snapshot: Snapshot, editing: Option<Id>, id: Id)
    requires actor.Member(k) && SnapshotRefusal(st, actor, k, snapshot, editing).None?
    requires editing == Some(id) || (editing.None? && id !in st.sections)
    ensures Holders(st.sections, k, snapshot.paragraphRef, Some(id)) == {}
  {
    hide First, FirstUnknown;
    assert Holders(st.sections, k, snapshot.paragraphRef, Some(id)) == Holders(st.sections, k, snapshot.paragraphRef, editing);
  }

  // Only the section's own row is rewritten; its event touches no text.
  lemma DraftWrites(st: State, actor: Actor, k: Id, id: Id, revisionId: Id, snapshot: Snapshot, now: int) returns (section: Section)
    requires DraftRefusal(st, actor, k, snapshot).None?
    ensures section.caseId == k && section.snapshot == snapshot
    ensures var next := Drafted(st, actor, k, id, revisionId, snapshot, now);
            next.conflicts == st.conflicts && SameTexts(st.sections[id := section], next.sections)
  {
    hide Audited, Event, SnapshotRefusal, RevisionOf, NextPosition, SameTexts;
    section := Section(k, snapshot, NextPosition(st.sections, k, Sorted(st.sections.Keys)), None, 1, false);
    AuditKeepsHistory(Revised(st, id, section, revisionId, actor, now, "Initial draft.", None), k,
                      Event(actor, k, now, SectionDrafted, OnSection, id, false));
    section := section.(active := Some(revisionId));
  }

  lemma RevisionWrites(st: State, actor: Actor, k: Id, id: Id, revisionId: Id, version: Option<nat>, snapshot: Snapshot,
                       reason: string, now: int) returns (section: Section)
    requires ReviseRefusal(st, actor, k, id, version, snapshot).None?
    ensures section.caseId == k && section.snapshot == snapshot
    ensures var next := RevisedSection(st, actor, k, id, revisionId, version, snapshot, reason, now);
            next.conflicts == st.conflicts && SameTexts(st.sections[id := section], next.sections)
  {
    hide Audited, Event, SnapshotRefusal, RevisionOf, ImpactOf, SameTexts;
    section := st.sections[id].(snapshot := snapshot, version := st.sections[id].version + 1);
    AuditKeepsHistory(Revised(st, id, section, revisionId, actor, now, reason, None), k,
                      Event(actor, k, now, SectionRevised, OnSection, id,
                            ImpactOf(st, st.sections[id].snapshot.cites).status != ImpactOf(st, snapshot.cites).status));
    section := section.(active := Some(revisionId));
  }

  lemma ApprovalWrites(st: State, actor: Actor, k: Id, id: Id, revisionId: Id, version: Option<nat>, now: int)
    requires ApproveRefusal(st, actor, k, id, version).None?
    ensures var next := Approved(st, actor, k, id, revisionId, version, now);
            next.conflicts == st.conflicts && SameTexts(st.sections, next.sections)
  {
    hide Audited, Event, RevisionOf, ImpactOf, EvidenceDigest;
    var section := st.sections[id].(version := st.sections[id].version + 1, approvalCurrent := true);
    AuditKeepsHistory(Revised(st, id, section, revisionId, actor, now, "Approved complete rendered section for production.",
                              Some(EvidenceDigest(st, section.snapshot.cites))), k,
                      Event(actor, k, now, SectionApproved, OnSection, id, false));
  }

  lemma DraftKeeps(st: State, actor: Actor, k: Id, id: Id, revisionId: Id, snapshot: Snapshot, now: int)
    requires IndexesHold(st) && id !in st.sections && DraftRefusal(st, actor, k, snapshot).None?
    ensures IndexesHold(Drafted(st, actor, k, id, revisionId, snapshot, now))
  {
    hide Drafted, SnapshotRefusal, SameTexts, OneOpenPerPair, ReferencesUnique;
    var section := DraftWrites(st, actor, k, id, revisionId, snapshot, now);
    UntakenReference(st, actor, k, snapshot, None, id);
    WritingKeeps(st.sections, id, section);
    TextsKeep(st.sections[id := section], Drafted(st, actor, k, id, revisionId, snapshot, now).sections);
  }

  lemma ReviseKeeps(st: State, actor: Actor, k: Id, id: Id, revisionId: Id, version: Option<nat>, snapshot: Snapshot,
                    reason: string, now: int)
    requires IndexesHold(st) && ReviseRefusal(st, actor, k, id, version, snapshot).None?
    ensures IndexesHold(RevisedSection(st, actor, k, id, revisionId, version, snapshot, reason, now))
  {
    hide RevisedSection, SnapshotRefusal, SameTexts, OneOpenPerPair, ReferencesUnique;
    var section := RevisionWrites(st, actor, k, id, revisionId, version, snapshot, reason, now);
    UntakenReference(st, actor, k, snapshot, Some(id), id);
    WritingKeeps(st.sections, id, section);
    TextsKeep(st.sections[id := section], RevisedSection(st, actor, k, id, revisionId, version, snapshot, reason, now).sections);
  }

  lemma PlainStepsWrite(st: State, actor: Actor, k: Id, cmd: Command, now: int)
    requires FreshIds(st, k, cmd) && Refusal(st, actor, k, cmd).None?
    requires cmd.IngestSource? || cmd.ExtractClaim? || cmd.AttestQuote? || cmd.RecordExport?
    ensures var next := Effect(st, actor, k, cmd, now);
            next.conflicts == st.conflicts && SameTexts(st.sections, next.sections)
  {
    hide Audited, Event, Settled, ClaimCreated, ClaimRefusal, AttestRefusal, SameTexts, PagesFrom;
    match cmd
    case IngestSource(id, upload) =>
      AuditKeepsHistory(Ingested(st, k, id, upload, now), k, Event(actor, k, now, SourceIngested, OnSource, id, false));
    case ExtractClaim(id, claim) =>
      ClaimAnswered(st, actor, k, claim);
      AuditKeepsHistory(st.(claims := st.claims[id := ClaimCreated(st, id, claim, now)]), k,
                        Event(actor, k, now, ClaimExtracted, OnClaim, id, false));
    case AttestQuote(c) =>
      AttestAnswered(st, actor, k, c);
      var claim := st.claims[c].(quoteState := ManuallyVerified, updatedAt := now);
      AuditKeepsHistory(st.(claims := Settled(st.conflicts, st.claims[c := claim])), k,
                        Event(actor, k, now, QuoteVerified, OnClaim, c, true));
    case RecordExport(p) => AuditKeepsHistory(st, k, Event(actor, k, now, PacketGenerated, OnExport, p, false));
  }

  lemma ClaimAnswered(st: State, actor: Actor, k: Id, input: NewClaim)
    requires ClaimRefusal(st, actor, k, input).None?
    ensures actor.Member(k) && input.sourceId in st.sources
    ensures EvaluateQuote(PageCited(st, input), input.found, input.minOcrPercent).Some?
  {
    hide EvaluateQuote, PageBelongs;
  }

  lemma AttestAnswered(st: State, actor: Actor, k: Id, c: Id)
    requires AttestRefusal(st, actor, k, c).None?
    ensures actor.Member(k) && c in st.claims
  {
    hide AuthorOf;
  }

  // No operation ever leaves a pair with two open conflicts or two sections of a
  // matter under one reference: the refusals come first.
  lemma NextKeepsIndexes(st: State, req: Request, next: State)
    requires Next(st, req, next) && IndexesHold(st)
    ensures IndexesHold(next)
  {
    hide IndexesHold, SourceIngest, ClaimExtract, Flagged, Decided, Attested, Drafted, RevisedSection, Approved, Exported,
         ClaimRefusal, FlagRefusal, DecideRefusal, AttestRefusal, DraftRefusal, ReviseRefusal, ApproveRefusal;
    var st, k, actor, now := st, req.caseId, req.actor, req.now;
    if Refusal(st, actor, k, req.cmd).None? {
      match req.cmd
      case FlagConflict(id, conflict) => FlagKeeps(st, actor, k, id, conflict, now);
      case DecideConflict(ruling) => DecideKeeps(st, actor, k, ruling, now);
      case DraftSection(id, revisionId, snapshot) => DraftKeeps(st, actor, k, id, revisionId, snapshot, now);
      case ReviseSection(id, revisionId, version, snapshot, reason) =>
        ReviseKeeps(st, actor, k, id, revisionId, version, snapshot, reason, now);
      case ApproveSection(id, revisionId, version) =>
        ApprovalWrites(st, actor, k, id, revisionId, version, now);
        UnchangedKeeps(st, next);
      case _ =>
        PlainStepsWrite(st, actor, k, req.cmd, now);
        UnchangedKeeps(st, next);
    }
  }

  lemma UnchangedKeeps(st: State, next: State)
    requires IndexesHold(st) && next.conflicts == st.conflicts && SameTexts(st.sections, next.sections)
    ensures IndexesHold(next)
  {
    hide SameTexts, OneOpenPerPair, ReferencesUnique;
    TextsKeep(st.sections, next.sections);
  }

  lemma {:induction false} IndexesAlwaysHold(states: seq<State>, requests: seq<Request>, n: nat)
    requires Run(states, requests) && IndexesHold(states[0]) && n < |states|
    ensures IndexesHold(states[n])
  {
    hide Valid, Next, IndexesHold;
    if n > 0 {
      IndexesAlwaysHold(states, requests, n - 1);
      assert Next(states[n - 1], requests[n - 1], states[n]);
      NextKeepsIndexes(states[n - 1], requests[n - 1], states[n]);
    }
  }

  // So a refusal that names the open conflict of a pair, or the section under a
  // reference, has only one to name.
  lemma NamedIsUnique(st: State, k: Id, a: Id, b: Id, reference: string, editing: Option<Id>)
    requires IndexesHold(st)
    ensures forall f, g :: f in OpenPairs(st.conflicts, k, a, b) && g in OpenPairs(st.conflicts, k, a, b) ==> f == g
    ensures forall s, t :: s in Holders(st.sections, k, reference, editing) && t in Holders(st.sections, k, reference, editing) ==> s == t
  {
    forall f, g | f in OpenPairs(st.conflicts, k, a, b) && g in OpenPairs(st.conflicts, k, a, b) ensures f == g {
      assert OpenTogether(st.conflicts, f, g);
    }
    forall s, t | s in Holders(st.sections, k, reference, editing) && t in Holders(st.sections, k, reference, editing) ensures s == t {
      assert SameReference(st.sections, s, t);
    }
  }
}
