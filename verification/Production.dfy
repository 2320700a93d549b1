// What a production packet discloses and what it holds back.

module Production {
  import opened Basics
  import opened Domain
  import opened Chains
  import opened Evidence
  import opened Lineage
  import opened Approval
  import opened Steps
  import opened Soundness
  import opened Runs
  import opened Packets

  // ---- Approved evidence was eligible, and stays so while the digest holds ----

  ghost predicate CleanImage(cites: seq<Id>, image: ClaimImage)
  {
    image.ClaimImage? && (image.id in cites || !image.privilege.Withholding()) ==> image.eligibility == Eligible
  }

  ghost predicate CleanDigest(d: Digest)
  {
    forall i :: 0 <= i < |d.claims| ==> CleanImage(d.cites, d.claims[i])
  }

  ghost predicate CleanRevision(revision: Revision)
  {
    revision.content.approved ==>
      && revision.content.evidence.Some?
      && CleanDigest(revision.content.evidence.value)
  }

  ghost predicate ApprovalsClean(st: State)
  {
    forall r :: r in st.revisions ==> CleanRevision(st.revisions[r])
  }

  lemma ImpactReadsDigest(st: State, cites: seq<Id>)
    ensures ImpactOf(st, cites).status in {SectionEligible, WithDisclosure} <==> CleanDigest(EvidenceDigest(st, cites))
  {
    hide EvidenceOf, IncidentImages, ImageOfSource, SectionImpact;
    var evidence := EvidenceOf(st.conflicts, cites);
    var views := CitedViews(st, evidence, Elements(cites));
    var d := EvidenceDigest(st, cites);
    forall i | 0 <= i < |evidence|
      ensures d.claims[i] == ClaimImageIn(st.sources, st.claims, st.conflicts, evidence[i])
    {
    }
    if CleanDigest(d) {
      forall v | v in views ensures v.eligibility == Eligible {
        assert Viewed(st, evidence, Elements(cites), v);
        var i := IndexOf(evidence, v.id);
        assert CleanImage(d.cites, d.claims[i]);
      }
    }
    if forall v :: v in views ==> v.eligibility == Eligible {
      forall i | 0 <= i < |d.claims| ensures CleanImage(d.cites, d.claims[i]) {
        var c := evidence[i];
        if c in st.claims {
          var v := CitedClaim(c, st.claims[c].status, st.claims[c].eligibility);
          assert c in evidence;
          assert Viewed(st, evidence, Elements(cites), v) ==> v in views;
        }
      }
    }
  }

  lemma EvidenceStepsReviseNothing(st: State, actor: Actor, caseId: Id, cmd: Command, now: int)
    requires FreshIds(st, caseId, cmd) && Refusal(st, actor, caseId, cmd).None?
    requires !cmd.DraftSection? && !cmd.ReviseSection? && !cmd.ApproveSection?
    ensures Effect(st, actor, caseId, cmd, now).revisions == st.revisions
  {
    hide Settled, Withdrawn, NextRow, Event, FlagRefusal, DecideRefusal, ClaimRefusal, AttestRefusal, SourceRefusal,
         ClaimCreated, Flagged, Decided;
    if cmd.FlagConflict? { FlagKeepsHistory(st, actor, caseId, cmd.id, cmd.conflict, now); }
    if cmd.DecideConflict? { DecideKeepsHistory(st, actor, caseId, cmd.ruling, now); }
  }

  lemma SectionStepsReviseOnce(st: State, actor: Actor, caseId: Id, cmd: Command, now: int) returns (r: Id,
                               row: Revision)
    requires FreshIds(st, caseId, cmd) && Refusal(st, actor, caseId, cmd).None?
    requires cmd.DraftSection? || cmd.ReviseSection? || cmd.ApproveSection?
    ensures Effect(st, actor, caseId, cmd, now).revisions == st.revisions[r := row]
    ensures row.content.approved ==> cmd.ApproveSection?
    ensures cmd.ApproveSection? ==> row.content.evidence == Some(EvidenceDigest(st, st.sections[cmd.sectionId].snapshot.cites))
  {
    hide Withdrawn, ImpactOf, NextRow, SnapshotRefusal, EvidenceDigest, Event, NextPosition;
    match cmd
    case DraftSection(id, revisionId, snapshot) =>
      var section := Section(caseId, snapshot, NextPosition(st.sections, caseId, Sorted(st.sections.Keys)), None, 1, false);
      r, row := revisionId, RevisionOf(st, id, section, revisionId, actor, now, "Initial draft.", None);
    case ReviseSection(id, revisionId, version, snapshot, reason) =>
      var section := st.sections[id].(snapshot := snapshot, version := st.sections[id].version + 1);
      r, row := revisionId, RevisionOf(st, id, section, revisionId, actor, now, reason, None);
    case ApproveSection(id, revisionId, version) =>
      var section := st.sections[id].(version := st.sections[id].version + 1, approvalCurrent := true);
      r, row := revisionId, RevisionOf(st, id, section, revisionId, actor, now, "Approved complete rendered section for production.",
                            Some(EvidenceDigest(st, section.snapshot.cites)));
  }

  lemma NextKeepsClean(st: State, req: Request, next: State)
    requires Next(st, req, next) && ApprovalsClean(st)
    ensures ApprovalsClean(next)
  {
    hide CleanDigest, EvidenceDigest, ImpactOf, Effect, FreshIds;
    if Refusal(st, req.actor, req.caseId, req.cmd).None? {
      if req.cmd.DraftSection? || req.cmd.ReviseSection? || req.cmd.ApproveSection? {
        var r, row := SectionStepsReviseOnce(st, req.actor, req.caseId, req.cmd, req.now);
        if req.cmd.ApproveSection? { ImpactReadsDigest(st, st.sections[req.cmd.sectionId].snapshot.cites); }
      } else {
        EvidenceStepsReviseNothing(st, req.actor, req.caseId, req.cmd, req.now);
      }
    }
  }

  lemma {:induction false} EveryApprovalIsClean(states: seq<State>, requests: seq<Request>, n: nat)
    requires Run(states, requests) && ApprovalsClean(states[0]) && n < |states|
    ensures ApprovalsClean(states[n])
  {
    hide Valid, Next, ApprovalsClean;
    if n > 0 {
      EveryApprovalIsClean(states, requests, n - 1);
      assert Next(states[n - 1], requests[n - 1], states[n]);
      NextKeepsClean(states[n - 1], requests[n - 1], states[n]);
    }
  }

  // ---- What is included ----

  ghost predicate Ready(st: State) { Valid(st) && ApprovalsClean(st) }

  // Runs may start from an empty store.
  lemma EmptyIsReady()
    ensures Ready(EMPTY)
  {
    EmptyIsValid();
  }

  lemma WithheldIsIneligible(st: State, c: Id)
    requires CachesAgree(st) && c in st.claims
    ensures Withheld(st, c) <==> st.claims[c].eligibility == Privileged
  {
    assert st.claims[c] == Recomputed(st.conflicts, c, st.claims[c]);
  }

  // A raised flag is confirmed by everything the builder rechecks.
  lemma FlagMeansApproved(st: State, s: Id)
    requires Valid(st) && s in st.sections && st.sections[s].approvalCurrent
    ensures ApprovedNow(st, s) && ActiveRevision(st, s).value.content.snapshot == st.sections[s].snapshot
    ensures ActiveRevision(st, s).value in st.revisions.Values
  {
    hide EvidenceDigest, Line, Recomputed, Linked;
    var section := st.sections[s];
    assert Honest(st, section);
    var path: seq<Revision> :| LineFor(st.revisions, s, section, path);
    assert path[|path| - 1].id == section.active.value;
  }

  lemma ApprovedEvidenceIsEligible(st: State, s: Id)
    requires Ready(st) && s in st.sections && st.sections[s].approvalCurrent
    ensures ImpactOf(st, st.sections[s].snapshot.cites).status in {SectionEligible, WithDisclosure}
  {
    hide Sound, ApprovalsHonest, EvidenceDigest, ImpactOf, CleanDigest;
    FlagMeansApproved(st, s);
    var revision := ActiveRevision(st, s).value;
    assert CleanRevision(revision);
    ImpactReadsDigest(st, st.sections[s].snapshot.cites);
  }

  // What an eligible impact says of the closure.
  lemma EligibleClosure(st: State, cites: seq<Id>)
    requires ImpactOf(st, cites).status in {SectionEligible, WithDisclosure}
    ensures forall c :: c in EvidenceOf(st.conflicts, cites) && c in st.claims && !Withheld(st, c) ==>
              st.claims[c].eligibility == Eligible
    ensures forall c :: c in cites && c in st.claims ==> st.claims[c].eligibility == Eligible
  {
    hide EvidenceIds, PreservedEdges, SectionImpact;
    var evidence := EvidenceOf(st.conflicts, cites);
    ClosureIsLeast(PreservedEdges(st.conflicts), cites, {});
    var views := CitedViews(st, evidence, Elements(cites));
    forall c | c in evidence && c in st.claims && (c in cites || !Withheld(st, c))
      ensures st.claims[c].eligibility == Eligible
    {
      assert Viewed(st, evidence, Elements(cites), CitedClaim(c, st.claims[c].status, st.claims[c].eligibility));
    }
    forall c | c in cites && c in st.claims ensures c in evidence {
      assert c in Elements(evidence);
    }
  }

  // In every reachable state production holds exactly the sections whose
  // approval flag is raised; of the others, exactly those that cite withheld
  // material are withheld, the rest excluded. The text is always the row's own.
  lemma ProductionFollowsApproval(st: State, s: Id)
    requires Ready(st) && s in st.sections
    ensures var plan := PlanOf(st, Production, s);
      && plan.snapshot == st.sections[s].snapshot
      && (plan.disposition == Included <==> st.sections[s].approvalCurrent)
      && (plan.disposition == WithheldEntry <==> exists c :: c in st.sections[s].snapshot.cites && Withheld(st, c))
  {
    hide EvidenceDigest, LineFor, Recomputed, Linked, DisclosedConflicts, ImpactOf, ApprovedNow, CleanRevision;
    var cites := st.sections[s].snapshot.cites;
    if st.sections[s].approvalCurrent {
      FlagMeansApproved(st, s);
      ApprovedEvidenceIsEligible(st, s);
      EligibleClosure(st, cites);
      forall c | c in cites ensures !Withheld(st, c) {
        if c in st.claims { WithheldIsIneligible(st, c); }
      }
    } else {
      assert !ApprovedNow(st, s) by { NotApprovedUnflagged(st, s); }
    }
  }

  lemma NotApprovedUnflagged(st: State, s: Id)
    requires s in st.sections && !st.sections[s].approvalCurrent
    ensures !ApprovedNow(st, s)
  {
  }

  // ---- Disclosure is complete ----

  // Eligible and party to a preserved conflict means the claim itself is preserved.
  lemma EligiblePartyIsPreserved(st: State, c: Id, f: Id)
    requires Sound(st) && c in st.claims && st.claims[c].eligibility == Eligible
    requires f in st.conflicts && st.conflicts[f].status == PreservedBoth && st.conflicts[f].Touches(c)
    ensures st.claims[c].status == Preserved
  {
    hide StatusOf, RelatedStatuses;
    assert st.claims[c] == Recomputed(st.conflicts, c, st.claims[c]);
    StatusIsMostDecisive(st.conflicts, c);
    assert f in Incident(st.conflicts, c);
    assert ConflictRooted(st.claims, st.conflicts[f]);
  }

  lemma ClosureIsKnown(st: State, cites: seq<Id>)
    requires ConflictsRooted(st)
    requires forall c :: c in cites ==> c in st.claims
    ensures forall c :: c in EvidenceOf(st.conflicts, cites) ==> c in st.claims
  {
    hide EvidenceIds;
    var edges := PreservedEdges(st.conflicts);
    forall x | x in Neighbours(edges, st.claims.Keys) ensures x in st.claims {
      var e :| e in edges && e.0 in st.claims && e.1 == x;
      var f := EdgeWitness(st.conflicts, e);
      assert ConflictRooted(st.claims, st.conflicts[f]);
    }
    ClosureIsLeast(edges, cites, st.claims.Keys);
    forall c | c in EvidenceOf(st.conflicts, cites) ensures c in st.claims {
      assert c in Elements(EvidenceOf(st.conflicts, cites));
    }
  }

  ghost predicate TouchesOpenly(st: State, f: Id, evidence: seq<Id>)
    requires f in st.conflicts
  {
    exists c :: c in evidence && !Withheld(st, c) && st.conflicts[f].Touches(c)
  }

  // Every preserved conflict with a showable party in the evidence is listed.
  ghost predicate AllDisclosed(st: State, evidence: seq<Id>, disclosed: seq<Id>)
  {
    forall f :: f in st.conflicts && st.conflicts[f].status == PreservedBoth && TouchesOpenly(st, f, evidence) ==> f in disclosed
  }

  // An included section rests on an eligible closure, and lists, once each,
  // every preserved conflict that touches a claim of it that may be shown.
  lemma DisclosureIsComplete(st: State, s: Id)
    requires Ready(st) && s in st.sections && PlanOf(st, Production, s).disposition == Included
    ensures var plan, evidence := PlanOf(st, Production, s), EvidenceOf(st.conflicts, st.sections[s].snapshot.cites);
      && (forall c :: c in evidence ==> c in st.claims && (!Withheld(st, c) ==> st.claims[c].eligibility == Eligible))
      && Distinct(plan.disclosed)
      && AllDisclosed(st, evidence, plan.disclosed)
      && (forall f :: f in plan.disclosed ==>
            && f in st.conflicts && st.conflicts[f].status == PreservedBoth
            && st.conflicts[f].a in evidence && st.conflicts[f].b in evidence)
  {
    hide EvidenceIds, PlanOf, ApprovalsHonest, LinesKept, LogsLinked, CachesAgree, CleanRevision, DisclosuresMet,
         CitesKnown;
    ProductionFollowsApproval(st, s);
    ApprovedEvidenceIsEligible(st, s);
    var cites := st.sections[s].snapshot.cites;
    EligibleClosure(st, cites);
    CitesAreKnown(st, s);
    ClosureIsKnown(st, cites);
    assert PlanOf(st, Production, s).disclosed == Dedup(DisclosuresMet(st, EvidenceOf(st.conflicts, cites))) by {
      DisclosedByPlan(st, s);
    }
    DisclosedExactly(st, cites);
  }

  lemma CitesAreKnown(st: State, s: Id)
    requires SectionsRooted(st) && s in st.sections
    ensures forall c :: c in st.sections[s].snapshot.cites ==> c in st.claims
  {
    assert CitesKnown(st.claims, st.sections[s]);
  }

  lemma DisclosedByPlan(st: State, s: Id)
    requires s in st.sections && PlanOf(st, Production, s).disposition == Included
    ensures PlanOf(st, Production, s).disclosed
            == Dedup(DisclosuresMet(st, EvidenceOf(st.conflicts, PlanOf(st, Production, s).snapshot.cites)))
  {
  }

  lemma DisclosedExactly(st: State, cites: seq<Id>)
    requires Sound(st)
    requires forall c :: c in EvidenceOf(st.conflicts, cites) ==>
               c in st.claims && (!Withheld(st, c) ==> st.claims[c].eligibility == Eligible)
    ensures var evidence := EvidenceOf(st.conflicts, cites); var met := DisclosuresMet(st, evidence);
      && AllDisclosed(st, evidence, met)
      && (forall f :: f in met ==>
            && f in st.conflicts && st.conflicts[f].status == PreservedBoth
            && st.conflicts[f].a in evidence && st.conflicts[f].b in evidence)
  {
    hide EvidenceIds, PreservedEdges, LinesKept, LogsLinked, CachesAgree, DisclosuresMet, SectionsRooted, ClaimsRooted;
    var evidence := EvidenceOf(st.conflicts, cites);
    forall f | f in st.conflicts && st.conflicts[f].status == PreservedBoth && TouchesOpenly(st, f, evidence)
      ensures f in DisclosuresMet(st, evidence)
    {
      var c :| c in evidence && !Withheld(st, c) && st.conflicts[f].Touches(c);
      EligiblePartyIsPreserved(st, c, f);
      assert ConflictRooted(st.claims, st.conflicts[f]);
      assert MetAt(st, c, f);
      MetExactly(st, evidence, f);
    }
    forall f | f in DisclosuresMet(st, evidence)
      ensures f in st.conflicts && st.conflicts[f].status == PreservedBoth
      ensures st.conflicts[f].a in evidence && st.conflicts[f].b in evidence
    {
      MetExactly(st, evidence, f);
      ClosureHoldsBothEnds(st.conflicts, cites, f);
    }
  }

  // The same, of every state of every run.
  lemma EveryProductionIsComplete(states: seq<State>, requests: seq<Request>, n: nat, s: Id)
    requires Run(states, requests) && ApprovalsClean(states[0]) && n < |states| && s in states[n].sections
    ensures var st := states[n]; var plan := PlanOf(st, Production, s);
            var evidence := EvidenceOf(st.conflicts, st.sections[s].snapshot.cites);
      && (plan.disposition == Included <==> st.sections[s].approvalCurrent)
      && (plan.disposition == Included ==>
            && (forall c :: c in evidence ==> c in st.claims && (!Withheld(st, c) ==> st.claims[c].eligibility == Eligible))
            && Distinct(plan.disclosed)
            && AllDisclosed(st, evidence, plan.disclosed)
            && (forall f :: f in plan.disclosed ==>
                  && f in st.conflicts && st.conflicts[f].status == PreservedBoth
                  && st.conflicts[f].a in evidence && st.conflicts[f].b in evidence))
  {
    hide Run, PlanOf, ApprovalsClean, Valid, TouchesOpenly, EvidenceOf;
    EveryStateIsValid(states, requests, n);
    EveryApprovalIsClean(states, requests, n);
    ProductionFollowsApproval(states[n], s);
    if PlanOf(states[n], Production, s).disposition == Included { DisclosureIsComplete(states[n], s); }
  }
}
