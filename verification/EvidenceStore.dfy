// The service operations, as they run: rows are assigned in place, only the
// claims an operation names are recomputed, and each operation is proved to
// leave exactly the state its meaning in `Steps` prescribes.

module EvidenceStores {
  import opened Basics
  import opened Domain
  import opened Chains
  import opened Evidence
  import opened Lineage
  import opened Approval
  import opened Steps
  import opened Soundness
  import opened Preservation
  import opened Runs

  function TouchedClaim(c: Claim, reviewer: string, now: int): Claim
  {
    c.(assessment := c.assessment.(reviewer := Some(reviewer)), updatedAt := now)
  }

  // Recomputing the two claims of the written conflict is recomputing them all.
  lemma LocalIsGlobal(st: State, id: Id, row: Conflict, reviewer: string, now: int)
    requires CachesAgree(st) && row.a in st.claims && row.b in st.claims && row.a != row.b
    requires id in st.conflicts ==> st.conflicts[id].a == row.a && st.conflicts[id].b == row.b
    ensures var after := st.conflicts[id := row];
            st.claims[row.a := Recomputed(after, row.a, TouchedClaim(st.claims[row.a], reviewer, now))]
                     [row.b := Recomputed(after, row.b, TouchedClaim(st.claims[row.b], reviewer, now))]
            == Settled(after, TouchedPair(st.claims, row.a, row.b, reviewer, now))
  {
    hide Recomputed;
    var after := st.conflicts[id := row];
    forall c | c in st.claims && c != row.a && c != row.b
      ensures Recomputed(after, c, st.claims[c]) == st.claims[c]
    {
      UntouchedCacheStands(st.conflicts, id, row, c, st.claims[c]);
    }
  }

  // Auditing the first claim before or after the second is recomputed is the same.
  lemma ReviewedPair(st: State, actor: Actor, caseId: Id, a: Id, b: Id, x: Claim, y: Claim, now: int)
    requires actor.Member(caseId) && a in st.claims && b in st.claims && a != b
    ensures var first := st.claims[a := x];
            var both := first[b := y];
            AuditedIfChanged(AuditedIfChanged(st.(claims := first), st.claims, actor, caseId, a, now).(claims := both),
                             first, actor, caseId, b, now)
            == AuditedIfChanged(AuditedIfChanged(st.(claims := both), st.claims, actor, caseId, a, now),
                                st.claims, actor, caseId, b, now)
  {
    hide AuditedIfChanged;
    var first := st.claims[a := x];
    var both := first[b := y];
    FirstAuditMoves(st, first, both, actor, caseId, a, now);
    SameBefore(AuditedIfChanged(st.(claims := both), st.claims, actor, caseId, a, now), first, st.claims, actor, caseId, b, now);
  }

  // An audit event reads the claim it is about, not the rest of the table.
  lemma FirstAuditMoves(st: State, first: map<Id, Claim>, both: map<Id, Claim>, actor: Actor, caseId: Id, a: Id,
                        now: int)
    requires actor.Member(caseId) && a in st.claims && a in first && a in both && first[a] == both[a]
    ensures AuditedIfChanged(st.(claims := first), st.claims, actor, caseId, a, now).(claims := both)
            == AuditedIfChanged(st.(claims := both), st.claims, actor, caseId, a, now)
  {
    hide Audited, ComputeEligibility;
    AuditMoves(st, first, both, caseId, StatusEvent(st.claims, first, actor, caseId, a, now));
  }

  lemma AuditMoves(st: State, first: map<Id, Claim>, both: map<Id, Claim>, caseId: Id, event: AuditEvent)
    ensures Audited(st.(claims := first), caseId, event).(claims := both) == Audited(st.(claims := both), caseId, event)
  {
    hide Withdrawn, NextRow;
  }

  lemma SameBefore(t: State, one: map<Id, Claim>, two: map<Id, Claim>, actor: Actor, caseId: Id, b: Id, now: int)
    requires actor.Member(caseId) && b in t.claims && b in one && b in two && one[b] == two[b]
    ensures AuditedIfChanged(t, one, actor, caseId, b, now) == AuditedIfChanged(t, two, actor, caseId, b, now)
  {
    hide Audited;
  }

  // Writing the row and then its new active revision is writing it once.
  lemma RowThenRevision(st: State, id: Id, section: Section, revisionId: Id, actor: Actor, now: int,
                        reason: string, evidence: Option<Digest>)
    requires actor.Member(section.caseId)
    ensures Revised(st.(sections := st.sections[id := section]), id, section, revisionId, actor, now, reason, evidence)
            == Revised(st, id, section, revisionId, actor, now, reason, evidence)
  {
    var s := section.(active := Some(revisionId));
    assert st.sections[id := section][id := s] == st.sections[id := s];
  }

  lemma AttestIsGlobal(st: State, claim: Id, c: Claim)
    requires CachesAgree(st) && claim in st.claims
    requires c == st.claims[claim].(quoteState := c.quoteState, updatedAt := c.updatedAt)
    ensures st.claims[claim := c.(eligibility := EligibilityOf(st.conflicts, claim, c))]
            == Settled(st.conflicts, st.claims[claim := c])
  {
    hide StatusOf, RelatedStatuses;
    assert st.claims[claim] == Recomputed(st.conflicts, claim, st.claims[claim]);
  }

  class EvidenceStore {
    var sources: map<Id, Source>
    var runs: map<Id, ExtractionRun>
    var pages: map<Id, Page>
    var claims: map<Id, Claim>
    var conflicts: map<Id, Conflict>
    var sections: map<Id, Section>
    var revisions: map<Id, Revision>
    var audit: map<Id, seq<Row<AuditEvent>>>
    var decisions: map<Id, seq<Row<DecisionRecord>>>

    function View(): State
      reads this
    {
      State(sources, runs, pages, claims, conflicts, sections, revisions, audit, decisions)
    }

    constructor ()
      ensures View() == EMPTY && Valid(View())
    {
      sources, runs, pages, claims, conflicts := map[], map[], map[], map[], map[];
      sections, revisions, audit, decisions := map[], map[], map[], map[];
      new;
      EmptyIsValid();
    }

    // Withdraw what the event invalidates, then chain the event.
    method AppendAudit(caseId: Id, event: AuditEvent)
      modifies this`sections, this`audit
      ensures View() == Audited(old(View()), caseId, event)
    {
      if event.subject in {OnClaim, OnConflict, OnSource} {
        sections := WithdrawCase(sections, caseId);
      } else if event.subject == OnSection && event.action != SectionApproved {
        sections := WithdrawOne(sections, caseId, event.subjectId);
      }
      var log := if caseId in audit then audit[caseId] else [];
      var previous := Root(log);
      audit := audit[caseId := log + [Row(|log|, event, previous, Link(previous, |log|, event))]];
    }

    // Re-derive one claim's status from all its conflicts, then its eligibility.
    method RecomputeClaimStatus(id: Id)
      requires id in claims
      modifies this`claims
      ensures claims == old(claims)[id := Recomputed(conflicts, id, old(claims)[id])]
    {
      var status := StatusOf(conflicts, id);
      claims := claims[id := claims[id].(status := status)];
      claims := claims[id := claims[id].(eligibility := EligibilityOf(conflicts, id, claims[id]))];
    }

    // One claim of a flagged or decided conflict; a decision audits only a change.
    method ReviewClaim(actor: Actor, caseId: Id, id: Id, now: int, always: bool)
      requires id in claims && actor.Member(caseId)
      modifies this`claims, this`sections, this`audit
      ensures var st := old(View());
              var after := st.claims[id := Recomputed(st.conflicts, id, TouchedClaim(st.claims[id], actor.name, now))];
              var next := st.(claims := after);
              View() == if always then Audited(next, caseId, StatusEvent(st.claims, after, actor, caseId, id, now))
                        else AuditedIfChanged(next, st.claims, actor, caseId, id, now)
    {
      hide Recomputed, Withdrawn;
      var before := claims;
      claims := claims[id := TouchedClaim(claims[id], actor.name, now)];
      RecomputeClaimStatus(id);
      if always || before[id].status != claims[id].status || before[id].eligibility != claims[id].eligibility {
        AppendAudit(caseId, StatusEvent(before, claims, actor, caseId, id, now));
      }
    }

    // Append-only: the parent is the active revision, which the new one replaces.
    method AppendSectionRevision(id: Id, revisionId: Id, actor: Actor, now: int, reason: string,
                                 evidence: Option<Digest>)
      requires id in sections && actor.Member(sections[id].caseId)
      modifies this`sections, this`revisions
      ensures View() == Revised(old(View()), id, old(sections)[id], revisionId, actor, now, reason, evidence)
    {
      var section := sections[id];
      var parent := if section.active.Some? && section.active.value in revisions
                    then Some(revisions[section.active.value]) else None;
      var content := RevisionContent(id, section.caseId, section.snapshot, actor.id, actor.roles[section.caseId], now,
                                     reason, section.active, evidence.Some?,
                                     ContentOf(section.caseId, id, section.snapshot), evidence);
      revisions := revisions[revisionId := NextRevision(parent, revisionId, content)];
      sections := sections[id := section.(active := Some(revisionId))];
    }

    // ---- Operations ----

    method CreateSource(actor: Actor, caseId: Id, id: Id, upload: Upload, now: int) returns (outcome: Outcome)
      requires Valid(View()) && FreshIds(View(), caseId, IngestSource(id, upload))
      modifies this
      ensures Done(outcome, old(View()), actor, caseId, IngestSource(id, upload), now)
      ensures Valid(View())
    {
      hide Valid, Audited;
      var refusal := SourceRefusal(actor, caseId, upload.privilege);
      if refusal.Some? { return Refused(refusal.value); }
      ghost var was := View();
      var source := SourceOf(caseId, upload, now);
      sources := sources[id := source.(details := source.details.(activeRun := None))];
      runs := runs[upload.runId := ExtractionRun(caseId, id, upload.manifest)];
      pages := pages + PagesFrom(caseId, id, upload);
      sources := sources[id := source];
      assert sources == was.sources[id := source];
      AppendAudit(caseId, Event(actor, caseId, now, SourceIngested, OnSource, id, false));
      outcome := Outcome.Done;
      EffectIsValid(was, actor, caseId, IngestSource(id, upload), now);
    }

    // The operation did what the command means, or nothing.
    ghost predicate Done(outcome: Outcome, was: State, actor: Actor, caseId: Id, cmd: Command, now: int)
      requires FreshIds(was, caseId, cmd)
      reads this
    {
      var refusal := Refusal(was, actor, caseId, cmd);
      if refusal.Some? then outcome == Refused(refusal.value) && View() == was
      else outcome == Outcome.Done && View() == Effect(was, actor, caseId, cmd, now)
    }

    method CreateClaim(actor: Actor, caseId: Id, id: Id, input: NewClaim, now: int) returns (outcome: Outcome)
      requires Valid(View()) && FreshIds(View(), caseId, ExtractClaim(id, input))
      modifies this
      ensures Done(outcome, old(View()), actor, caseId, ExtractClaim(id, input), now)
      ensures Valid(View())
    {
      hide Valid, Audited, ClaimCreated, EvaluateQuote, PageBelongs;
      var refusal := ClaimRefusal(View(), actor, caseId, input);
      if refusal.Some? { return Refused(refusal.value); }
      ghost var was := View();
      WriteClaim(id, input, now);
      AppendAudit(caseId, Event(actor, caseId, now, ClaimExtracted, OnClaim, id, false));
      outcome := Outcome.Done;
      EffectIsValid(was, actor, caseId, ExtractClaim(id, input), now);
    }

    // The new row, and the verification of its quote as a managed second write.
    method WriteClaim(id: Id, input: NewClaim, now: int)
      requires input.sourceId in sources
      requires EvaluateQuote(PageCited(View(), input), input.found, input.minOcrPercent).Some?
      modifies this`claims
      ensures View() == old(View()).(claims := old(claims)[id := ClaimCreated(old(View()), id, input, now)])
    {
      hide EvaluateQuote, PageCited, ComputeEligibility;
      var source := sources[input.sourceId];
      var quote := EvaluateQuote(PageCited(View(), input), input.found, input.minOcrPercent).value;
      var claim := Claim(source.caseId, input.sourceId, source.privilege, input.content,
                         Assessment(input.confidence, input.quality, None), Unreviewed,
                         ComputeEligibility(Unreviewed, source.privilege, {}, LegacyUnverified),
                         LegacyUnverified, None, None, now);
      ghost var before := claims;
      claims := claims[id := claim];
      claim := claim.(pageId := input.pageId, quoteState := quote,
                      basis := if quote == LegacyUnverified then None
                               else Some(Basis(id, input.sourceId, input.pageId, input.content.quote)));
      claim := claim.(eligibility := ComputeEligibility(claim.status, claim.privilege, {}, claim.quoteState));
      claims := claims[id := claim];
      assert claims == before[id := claim];
    }

    // The flag itself: the new row, both claims, then the events.
    method OpenConflict(actor: Actor, caseId: Id, id: Id, input: NewConflict, now: int)
      requires CachesAgree(View()) && id !in conflicts && FlagRefusal(View(), actor, caseId, input).None?
      modifies this
      ensures View() == Flagged(old(View()), actor, caseId, id, input, now)
    {
      hide Recomputed, Settled, CachesAgree, Withdrawn;
      ghost var was := View();
      var row := ConflictOpened(caseId, input, now);
      conflicts := conflicts[id := row];
      ReviewClaim(actor, caseId, input.a, now, true);
      ReviewClaim(actor, caseId, input.b, now, true);
      AppendAudit(caseId, Event(actor, caseId, now, ConflictFlagged, OnConflict, id, true));
      LocalIsGlobal(was, id, row, actor.name, now);
    }

    method FlagConflict(actor: Actor, caseId: Id, id: Id, input: NewConflict, now: int) returns (outcome: Outcome)
      requires Valid(View()) && FreshIds(View(), caseId, Command.FlagConflict(id, input))
      modifies this
      ensures Done(outcome, old(View()), actor, caseId, Command.FlagConflict(id, input), now)
      ensures Valid(View())
    {
      hide GoodStep, ApprovalsHonest, ClaimsRooted, ConflictsRooted, SectionsRooted, LinesKept, LogsLinked,
           CachesAgree, Flagged;
      var refusal := FlagRefusal(View(), actor, caseId, input);
      if refusal.Some? { return Refused(refusal.value); }
      ghost var was := View();
      OpenConflict(actor, caseId, id, input, now);
      outcome := Outcome.Done;
      EffectIsValid(was, actor, caseId, Command.FlagConflict(id, input), now);
    }

    // Both claims of a decided conflict, audited where something changed.
    method ReviewDecided(actor: Actor, caseId: Id, f: Conflict, now: int)
      requires actor.Member(caseId) && f.a in claims && f.b in claims && f.a != f.b
      modifies this`claims, this`sections, this`audit
      ensures var st := old(View());
              var both := st.claims[f.a := Recomputed(st.conflicts, f.a, TouchedClaim(st.claims[f.a], actor.name, now))]
                                   [f.b := Recomputed(st.conflicts, f.b, TouchedClaim(st.claims[f.b], actor.name, now))];
              View() == AuditedIfChanged(AuditedIfChanged(st.(claims := both), st.claims, actor, caseId, f.a, now),
                                         st.claims, actor, caseId, f.b, now)
    {
      hide Recomputed, AuditedIfChanged;
      ReviewedPair(View(), actor, caseId, f.a, f.b,
                   Recomputed(conflicts, f.a, TouchedClaim(claims[f.a], actor.name, now)),
                   Recomputed(conflicts, f.b, TouchedClaim(claims[f.b], actor.name, now)), now);
      ReviewClaim(actor, caseId, f.a, now, false);
      ReviewClaim(actor, caseId, f.b, now, false);
    }

    // The ruling itself: the row's status, dispositions and version, both
    // claims, then the chained decision and its audit event.
    method RuleOn(actor: Actor, caseId: Id, input: Ruling, now: int)
      requires CachesAgree(View()) && DecideRefusal(View(), actor, caseId, input).None?
      requires conflicts[input.conflictId].a != conflicts[input.conflictId].b
      modifies this
      ensures View() == Decided(old(View()), actor, caseId, input, now)
    {
      hide Recomputed, Settled, CachesAgree, Audited, AuditedIfChanged;
      ghost var was := View();
      var f := conflicts[input.conflictId];
      var transition := TransitionFor(input.decision, input.selected, f.a);
      var row := f.(status := transition.status);
      row := row.(dispositionA := transition.a, dispositionB := transition.b);
      row := row.(version := row.version + 1);
      assert row == ConflictDecided(f, input);
      conflicts := conflicts[input.conflictId := row];
      ReviewDecided(actor, caseId, f, now);
      LocalIsGlobal(was, input.conflictId, row, actor.name, now);
      var log := if caseId in decisions then decisions[caseId] else [];
      var record := DecisionRecord(input.conflictId, input.decision, SelectedClaim(f, input), input.reasoning, actor.name,
                                   actor.roles[caseId], now, f.status, row.status,
                                   claims[f.a].eligibility, claims[f.b].eligibility);
      decisions := decisions[caseId := log + [NextRow(log, |log|, record)]];
      AppendAudit(caseId, Event(actor, caseId, now, DecisionMade(input.decision), OnConflict, input.conflictId, false));
    }

    method ApplyDecision(actor: Actor, caseId: Id, input: Ruling, now: int) returns (outcome: Outcome)
      requires Valid(View())
      modifies this
      ensures Done(outcome, old(View()), actor, caseId, DecideConflict(input), now)
      ensures Valid(View())
    {
      hide GoodStep, ApprovalsHonest, ClaimsRooted, SectionsRooted, LinesKept, LogsLinked, CachesAgree, Decided;
      var refusal := DecideRefusal(View(), actor, caseId, input);
      if refusal.Some? { return Refused(refusal.value); }
      ghost var was := View();
      assert ConflictRooted(claims, conflicts[input.conflictId]);
      RuleOn(actor, caseId, input, now);
      outcome := Outcome.Done;
      EffectIsValid(was, actor, caseId, DecideConflict(input), now);
    }

    method AttestQuote(actor: Actor, caseId: Id, claimId: Id, now: int) returns (outcome: Outcome)
      requires Valid(View())
      modifies this
      ensures Done(outcome, old(View()), actor, caseId, Command.AttestQuote(claimId), now)
      ensures Valid(View())
    {
      hide Recomputed, Settled, Audited, GoodStep, ApprovalsHonest, ClaimsRooted, ConflictsRooted, SectionsRooted,
           LinesKept, LogsLinked;
      var refusal := AttestRefusal(View(), actor, caseId, claimId);
      if refusal.Some? { return Refused(refusal.value); }
      ghost var was := View();
      var claim := claims[claimId].(quoteState := ManuallyVerified);
      claim := claim.(updatedAt := now);
      claims := claims[claimId := claim.(eligibility := EligibilityOf(conflicts, claimId, claim))];
      AttestIsGlobal(was, claimId, claim);
      AppendAudit(caseId, Event(actor, caseId, now, QuoteVerified, OnClaim, claimId, true));
      outcome := Outcome.Done;
      assert View() == Attested(was, actor, caseId, claimId, now);
      EffectIsValid(was, actor, caseId, Command.AttestQuote(claimId), now);
    }

    method DraftSection(actor: Actor, caseId: Id, id: Id, revisionId: Id, snapshot: Snapshot, now: int)
      returns (outcome: Outcome)
      requires Valid(View()) && FreshIds(View(), caseId, Command.DraftSection(id, revisionId, snapshot))
      modifies this
      ensures Done(outcome, old(View()), actor, caseId, Command.DraftSection(id, revisionId, snapshot), now)
      ensures Valid(View())
    {
      hide Valid, Audited, SnapshotRefusal;
      var refusal := DraftRefusal(View(), actor, caseId, snapshot);
      if refusal.Some? { return Refused(refusal.value); }
      ghost var was := View();
      var position := NextPosition(sections, caseId, Sorted(sections.Keys));
      sections := sections[id := Section(caseId, snapshot, position, None, 1, false)];
      RowThenRevision(was, id, sections[id], revisionId, actor, now, "Initial draft.", None);
      AppendSectionRevision(id, revisionId, actor, now, "Initial draft.", None);
      AppendAudit(caseId, Event(actor, caseId, now, SectionDrafted, OnSection, id, false));
      outcome := Outcome.Done;
      assert View() == Drafted(was, actor, caseId, id, revisionId, snapshot, now);
      EffectIsValid(was, actor, caseId, Command.DraftSection(id, revisionId, snapshot), now);
    }

    method ReviseSection(actor: Actor, caseId: Id, id: Id, revisionId: Id, version: Option<nat>, snapshot: Snapshot,
                         reason: string, now: int) returns (outcome: Outcome)
      requires Valid(View()) && FreshIds(View(), caseId, Command.ReviseSection(id, revisionId, version, snapshot, reason))
      modifies this
      ensures Done(outcome, old(View()), actor, caseId,
                   Command.ReviseSection(id, revisionId, version, snapshot, reason), now)
      ensures Valid(View())
    {
      hide Valid, Audited, SnapshotRefusal, ImpactOf;
      var refusal := ReviseRefusal(View(), actor, caseId, id, version, snapshot);
      if refusal.Some? { return Refused(refusal.value); }
      ghost var was := View();
      var newImpact := ImpactOf(View(), snapshot.cites).status;
      var previousImpact := ImpactOf(View(), sections[id].snapshot.cites).status;
      sections := sections[id := sections[id].(snapshot := snapshot, version := sections[id].version + 1)];
      RowThenRevision(was, id, sections[id], revisionId, actor, now, reason, None);
      AppendSectionRevision(id, revisionId, actor, now, reason, None);
      AppendAudit(caseId, Event(actor, caseId, now, SectionRevised, OnSection, id, previousImpact != newImpact));
      outcome := Outcome.Done;
      assert View() == RevisedSection(was, actor, caseId, id, revisionId, version, snapshot, reason, now);
      EffectIsValid(was, actor, caseId, Command.ReviseSection(id, revisionId, version, snapshot, reason), now);
    }

    // The approval itself: the digest is taken before the row moves.
    method ApproveRow(actor: Actor, caseId: Id, id: Id, revisionId: Id, version: Option<nat>, now: int)
      requires ApproveRefusal(View(), actor, caseId, id, version).None?
      requires TwoSided(conflicts)
      modifies this
      ensures View() == Approved(old(View()), actor, caseId, id, revisionId, version, now)
    {
      hide Audited, ImpactOf, EvidenceDigest;
      ghost var was := View();
      var digest := EvidenceStateDigest(View(), sections[id].snapshot.cites);
      sections := sections[id := sections[id].(version := sections[id].version + 1, approvalCurrent := true)];
      var reason := "Approved complete rendered section for production.";
      RowThenRevision(was, id, sections[id], revisionId, actor, now, reason, Some(digest));
      AppendSectionRevision(id, revisionId, actor, now, reason, Some(digest));
      AppendAudit(caseId, Event(actor, caseId, now, SectionApproved, OnSection, id, false));
    }

    method ApproveSection(actor: Actor, caseId: Id, id: Id, revisionId: Id, version: Option<nat>, now: int)
      returns (outcome: Outcome)
      requires Valid(View()) && FreshIds(View(), caseId, Command.ApproveSection(id, revisionId, version))
      modifies this
      ensures Done(outcome, old(View()), actor, caseId, Command.ApproveSection(id, revisionId, version), now)
      ensures Valid(View())
    {
      hide GoodStep, ImpactOf, ApprovalsHonest, CachesAgree, ClaimsRooted, SectionsRooted, LinesKept, LogsLinked,
           Approved;
      var refusal := ApproveRefusal(View(), actor, caseId, id, version);
      if refusal.Some? { return Refused(refusal.value); }
      ghost var was := View();
      assert forall f :: f in conflicts ==> ConflictRooted(claims, conflicts[f]);
      ApproveRow(actor, caseId, id, revisionId, version, now);
      outcome := Outcome.Done;
      EffectIsValid(was, actor, caseId, Command.ApproveSection(id, revisionId, version), now);
    }
  }

  lemma EffectIsValid(st: State, actor: Actor, caseId: Id, cmd: Command, now: int)
    requires Valid(st) && FreshIds(st, caseId, cmd) && Refusal(st, actor, caseId, cmd).None?
    ensures Valid(Effect(st, actor, caseId, cmd, now))
  {
    hide Valid, Effect, Refusal;
    EffectIsGood(st, actor, caseId, cmd, now);
  }
}
