// The invariant of the evidence tables, and how rows may change over a step.

module Soundness {
  import opened Basics
  import opened Domain
  import opened Chains
  import opened Evidence
  import opened Lineage
  import opened Approval
  import opened Steps

  // ---- The invariant ----

  // Foreign keys, and a claim's privilege is its source's.
  ghost predicate ClaimsRooted(st: State)
  {
    forall c :: c in st.claims ==>
      && st.claims[c].sourceId in st.sources
      && st.sources[st.claims[c].sourceId].caseId == st.claims[c].caseId
      && st.sources[st.claims[c].sourceId].privilege == st.claims[c].privilege
  }

  ghost predicate ConflictRooted(claims: map<Id, Claim>, f: Conflict)
  {
    && f.a in claims && f.b in claims && f.a != f.b
    && claims[f.a].caseId == f.caseId && claims[f.b].caseId == f.caseId
    && Coherent(f.status, f.dispositionA, f.dispositionB)
  }

  ghost predicate ConflictsRooted(st: State)
  {
    forall f :: f in st.conflicts ==> ConflictRooted(st.claims, st.conflicts[f])
  }

  ghost predicate CitesKnown(claims: map<Id, Claim>, section: Section)
  {
    && section.snapshot.cites != [] && Distinct(section.snapshot.cites)
    && forall c :: c in section.snapshot.cites ==> c in claims && claims[c].caseId == section.caseId
  }

  ghost predicate SectionsRooted(st: State)
  {
    forall s :: s in st.sections ==> CitesKnown(st.claims, st.sections[s])
  }

  // Both stored claim caches agree with a full recomputation.
  ghost predicate CachesAgree(st: State)
  {
    forall c :: c in st.claims ==> st.claims[c] == Recomputed(st.conflicts, c, st.claims[c])
  }

  // A section's revisions are one line that ends in the active one.
  ghost predicate LineFor(revisions: map<Id, Revision>, id: Id, section: Section, path: seq<Revision>)
  {
    && path != [] && Line(path) && UniqueIds(path)
    && section.active == Some(path[|path| - 1].id)
    && (forall i :: 0 <= i < |path| ==> path[i].id in revisions && revisions[path[i].id] == path[i] &&
                                        path[i].content.sectionId == id && path[i].content.caseId == section.caseId)
    && (forall r :: r in revisions && revisions[r].content.sectionId == id ==> revisions[r] in path)
  }

  ghost predicate LinesKept(st: State)
  {
    && (forall r :: r in st.revisions ==> st.revisions[r].id == r && st.revisions[r].content.sectionId in st.sections)
    && (forall s :: s in st.sections ==> exists path :: LineFor(st.revisions, s, st.sections[s], path))
  }

  ghost predicate LogsLinked(st: State)
  {
    && (forall k :: k in st.audit ==> Linked(st.audit[k]))
    && (forall k :: k in st.decisions ==> Linked(st.decisions[k]))
  }

  ghost predicate Sound(st: State)
  {
    && ClaimsRooted(st) && ConflictsRooted(st) && SectionsRooted(st)
    && CachesAgree(st) && LinesKept(st) && LogsLinked(st)
  }

  // The approval flag never lies.
  ghost predicate Honest(st: State, section: Section)
  {
    section.approvalCurrent ==>
      && section.active.Some? && section.active.value in st.revisions
      && SnapshotOf(st.revisions[section.active.value]) == section.snapshot
      && RevisionApprovalCurrent(st, st.revisions[section.active.value])
  }

  ghost predicate ApprovalsHonest(st: State)
  {
    forall s :: s in st.sections ==> Honest(st, st.sections[s])
  }

  ghost predicate Valid(st: State) { Sound(st) && ApprovalsHonest(st) }

  const EMPTY := State(map[], map[], map[], map[], map[], map[], map[], map[], map[])

  lemma EmptyIsValid()
    ensures Valid(EMPTY)
  {
  }

  // ---- How rows may change ----

  // What no step ever changes about a claim.
  predicate SameIdentity(c: Claim, d: Claim)
  {
    c.caseId == d.caseId && c.sourceId == d.sourceId && c.privilege == d.privilege && c.content == d.content
  }

  // A quote state only ever moves from awaiting attestation to attested.
  predicate ClaimAdvances(c: Claim, d: Claim)
  {
    SameIdentity(c, d) && (c.quoteState == d.quoteState || (c.quoteState == ManualRequired && d.quoteState == ManuallyVerified))
  }

  predicate ConflictAdvances(f: Conflict, g: Conflict)
  {
    && f.caseId == g.caseId && f.a == g.a && f.b == g.b && f.version <= g.version
    && (f.version == g.version ==> f == g)
  }

  // Nothing is deleted, versions never fall, logs only grow.
  ghost predicate Advances(st: State, next: State)
  {
    && (forall c :: c in st.claims ==> c in next.claims && ClaimAdvances(st.claims[c], next.claims[c]))
    && (forall f :: f in st.conflicts ==> f in next.conflicts && ConflictAdvances(st.conflicts[f], next.conflicts[f]))
    && (forall s :: s in st.sources ==> s in next.sources && st.sources[s] == next.sources[s])
    && (forall r :: r in st.runs ==> r in next.runs && st.runs[r] == next.runs[r])
    && (forall p :: p in st.pages ==> p in next.pages && st.pages[p] == next.pages[p])
    && (forall r :: r in st.revisions ==> r in next.revisions && st.revisions[r] == next.revisions[r])
    && (forall k :: st.AuditOf(k) <= next.AuditOf(k))
    && (forall k :: st.DecisionsOf(k) <= next.DecisionsOf(k))
  }

  lemma AdvancesTransitive(a: State, b: State, c: State)
    requires Advances(a, b) && Advances(b, c)
    ensures Advances(a, c)
  {
    forall f | f in a.conflicts ensures f in c.conflicts && ConflictAdvances(a.conflicts[f], c.conflicts[f]) {
      assert ConflictAdvances(a.conflicts[f], b.conflicts[f]) && ConflictAdvances(b.conflicts[f], c.conflicts[f]);
    }
    forall k ensures a.AuditOf(k) <= c.AuditOf(k) && a.DecisionsOf(k) <= c.DecisionsOf(k) {
      assert a.AuditOf(k) <= b.AuditOf(k) && b.AuditOf(k) <= c.AuditOf(k);
      assert a.DecisionsOf(k) <= b.DecisionsOf(k) && b.DecisionsOf(k) <= c.DecisionsOf(k);
    }
  }

  // A step in one matter leaves the rows of every other matter alone.
  ghost predicate ElsewhereSame(st: State, next: State, k: Id)
  {
    && (forall c :: c in st.claims && st.claims[c].caseId != k ==> c in next.claims && next.claims[c] == st.claims[c])
    && (forall c :: c in next.claims && next.claims[c].caseId != k ==> c in st.claims && next.claims[c] == st.claims[c])
    && (forall f :: f in st.conflicts && st.conflicts[f].caseId != k ==>
          f in next.conflicts && next.conflicts[f] == st.conflicts[f])
    && (forall f :: f in next.conflicts && next.conflicts[f].caseId != k ==>
          f in st.conflicts && next.conflicts[f] == st.conflicts[f])
    && (forall s :: s in st.sections && st.sections[s].caseId != k ==>
          s in next.sections && next.sections[s] == st.sections[s])
    && (forall s :: s in next.sections && next.sections[s].caseId != k ==>
          s in st.sections && next.sections[s] == st.sections[s])
    && (forall j :: j != k ==> st.AuditOf(j) == next.AuditOf(j))
    && (forall j :: j != k ==> st.DecisionsOf(j) == next.DecisionsOf(j))
  }

  lemma ElsewhereTransitive(a: State, b: State, c: State, k: Id)
    requires ElsewhereSame(a, b, k) && ElsewhereSame(b, c, k)
    ensures ElsewhereSame(a, c, k)
  {
  }

  // One step within matter k, in both respects.
  ghost predicate StepIn(st: State, next: State, k: Id) { Advances(st, next) && ElsewhereSame(st, next, k) }

  lemma StepInTransitive(a: State, b: State, c: State, k: Id)
    requires StepIn(a, b, k) && StepIn(b, c, k)
    ensures StepIn(a, c, k)
  {
    AdvancesTransitive(a, b, c);
    ElsewhereTransitive(a, b, c, k);
  }

  // ---- Digests of other matters do not move ----

  ghost function ClaimsOfCase(st: State, k: Id): set<Id>
  {
    set c | c in st.claims && st.claims[c].caseId == k
  }

  lemma ConflictsElsewhere(st: State, next: State, k: Id, j: Id, region: set<Id>)
    requires ConflictsRooted(st) && ConflictsRooted(next) && ElsewhereSame(st, next, k) && j != k
    requires region == ClaimsOfCase(st, j)
    ensures AgreeOn(st.conflicts, next.conflicts, region)
    ensures forall f :: f in st.conflicts && Meets(st.conflicts[f], region) ==>
              f in next.conflicts && st.conflicts[f] == next.conflicts[f]
  {
    forall f | f in st.conflicts && Meets(st.conflicts[f], region)
      ensures f in next.conflicts && st.conflicts[f] == next.conflicts[f]
      ensures st.conflicts[f].a in region && st.conflicts[f].b in region
    {
      assert ConflictRooted(st.claims, st.conflicts[f]);
    }
    forall f | f in next.conflicts && Meets(next.conflicts[f], region)
      ensures f in st.conflicts && st.conflicts[f] == next.conflicts[f]
    {
      assert ConflictRooted(next.claims, next.conflicts[f]);
    }
  }

  lemma EvidenceElsewhere(st: State, next: State, k: Id, j: Id)
    requires ClaimsRooted(st) && ConflictsRooted(st) && ConflictsRooted(next) && StepIn(st, next, k) && j != k
    ensures SameEvidence(st, next, ClaimsOfCase(st, j))
  {
    var region := ClaimsOfCase(st, j);
    ConflictsElsewhere(st, next, k, j, region);
    forall c | c in region ensures SameClaimAndSource(st, next, c) {
      assert st.claims[c].sourceId in st.sources;
    }
  }

  lemma DigestElsewhere(st: State, next: State, k: Id, j: Id, cites: seq<Id>)
    requires Sound(st) && Sound(next) && StepIn(st, next, k) && j != k
    requires forall c :: c in cites ==> c in st.claims && st.claims[c].caseId == j
    ensures EvidenceDigest(st, cites) == EvidenceDigest(next, cites)
  {
    hide SameEvidence, ClaimsRooted, ConflictsRooted, CachesAgree, LinesKept, LogsLinked, StepIn, EvidenceDigest;
    EvidenceElsewhere(st, next, k, j);
    DigestFrame(st, next, ClaimsOfCase(st, j), cites);
  }

  // After a step that withdrew the approvals of its own matter, the rest stand.
  lemma HonestAfterEvidence(st: State, next: State, k: Id)
    requires Valid(st) && Sound(next) && StepIn(st, next, k)
    requires forall s :: s in next.sections && next.sections[s].caseId == k ==> !next.sections[s].approvalCurrent
    ensures Valid(next)
  {
    forall s | s in next.sections ensures Honest(next, next.sections[s]) {
      var section := next.sections[s];
      if section.caseId != k && section.approvalCurrent {
        assert st.sections[s] == section && Honest(st, section) && CitesKnown(st.claims, section);
        DigestElsewhere(st, next, k, section.caseId, section.snapshot.cites);
      }
    }
  }

  // ---- The audit append ----

  lemma WithdrawnFacts(sections: map<Id, Section>, caseId: Id, event: AuditEvent)
    ensures var w := Withdrawn(sections, caseId, event);
      && w.Keys == sections.Keys
      && (forall s :: s in sections ==> w[s].(approvalCurrent := sections[s].approvalCurrent) == sections[s])
      && (forall s :: s in sections && sections[s].caseId != caseId ==> w[s] == sections[s])
      && (forall s :: s in sections && !sections[s].approvalCurrent ==> !w[s].approvalCurrent)
      && (event.subject in {OnClaim, OnConflict, OnSource} ==>
            forall s :: s in w && w[s].caseId == caseId ==> !w[s].approvalCurrent)
      && (event.subject == OnExport || (event.action == SectionApproved && event.subject == OnSection) ==> w == sections)
  {
  }

  // Withdrawing a flag disturbs no line of revisions.
  lemma LinesIgnoreFlags(st: State, next: State)
    requires LinesKept(st) && next.revisions == st.revisions && next.sections.Keys == st.sections.Keys
    requires forall s :: s in st.sections ==>
               next.sections[s].active == st.sections[s].active && next.sections[s].caseId == st.sections[s].caseId
    ensures LinesKept(next)
  {
    forall s | s in next.sections ensures exists path :: LineFor(next.revisions, s, next.sections[s], path) {
      var path :| LineFor(st.revisions, s, st.sections[s], path);
      assert LineFor(next.revisions, s, next.sections[s], path);
    }
  }

  lemma AuditedLogs(st: State, caseId: Id, event: AuditEvent)
    requires LogsLinked(st)
    ensures LogsLinked(Audited(st, caseId, event))
    ensures |Audited(st, caseId, event).AuditOf(caseId)| == |st.AuditOf(caseId)| + 1
  {
    var log := st.AuditOf(caseId);
    AppendStaysLinked(log, |log|, event);
  }

  lemma AuditedSound(st: State, caseId: Id, event: AuditEvent)
    requires Sound(st)
    ensures Sound(Audited(st, caseId, event))
  {
    hide Line, LineFor, Recomputed, Linked, Withdrawn;
    var next := Audited(st, caseId, event);
    WithdrawnFacts(st.sections, caseId, event);
    LinesIgnoreFlags(st, next);
    AuditedLogs(st, caseId, event);
    forall s | s in next.sections ensures CitesKnown(next.claims, next.sections[s]) {
      assert CitesKnown(st.claims, st.sections[s]);
    }
  }

  lemma AuditedStep(st: State, caseId: Id, event: AuditEvent)
    ensures StepIn(st, Audited(st, caseId, event), caseId)
    ensures |Audited(st, caseId, event).AuditOf(caseId)| == |st.AuditOf(caseId)| + 1
  {
    hide Withdrawn, Advances, ElsewhereSame, NextRow;
    assert Advances(st, Audited(st, caseId, event)) by { AuditedAdvances(st, caseId, event); }
    assert ElsewhereSame(st, Audited(st, caseId, event), caseId) by { AuditedElsewhere(st, caseId, event); }
  }

  lemma AuditedAdvances(st: State, caseId: Id, event: AuditEvent)
    ensures Advances(st, Audited(st, caseId, event))
  {
    hide Withdrawn, NextRow;
  }

  lemma AuditedElsewhere(st: State, caseId: Id, event: AuditEvent)
    ensures ElsewhereSame(st, Audited(st, caseId, event), caseId)
  {
    hide Withdrawn, NextRow;
    WithdrawnFacts(st.sections, caseId, event);
  }
}
