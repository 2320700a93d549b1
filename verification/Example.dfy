// One run that ends in a production packet with a disclosed conflict one side
// of which is withheld, so that the theorems about such packets speak of
// something.

module Example {
  import opened Basics
  import opened Domain
  import opened Chains
  import opened Evidence
  import opened Approval
  import opened Steps
  import opened Soundness
  import opened Runs
  import opened Packets
  import opened Production
  import opened PacketBuilder
  import opened References

  const COUNSEL := Actor(0, "Counsel", map[0 := SeniorCounsel])

  function PrivilegeAt(i: Id): Privilege { if i == 1 then AttorneyClient else Public }

  function UploadAt(i: Id): Upload
  {
    Upload(SourceIdentity("log", "record", "carrier"), PrivilegeAt(i), "upload", None, "hash", "custody", i, "manifest", map[])
  }

  function ClaimAt(i: Id): NewClaim { NewClaim(i, ClaimContent("claim", "p. 1", "quote"), 1.0, "direct", None, false, 0) }

  const PAIR := NewConflict(0, 1, "factual", High, "They differ.")
  const RULING := Ruling(0, PreserveBoth, None, "Both stand.", 1)
  const SNAPSHOT := Snapshot("Findings", "1", "The aircraft descended.", [0])

  function Asked(cmd: Command): Request { Request(COUNSEL, 0, cmd, 0) }

  const REQUESTS: seq<Request> := [
    Asked(IngestSource(0, UploadAt(0))), Asked(IngestSource(1, UploadAt(1))),
    Asked(ExtractClaim(0, ClaimAt(0))), Asked(ExtractClaim(1, ClaimAt(1))),
    Asked(FlagConflict(0, PAIR)), Asked(DecideConflict(RULING)),
    Asked(DraftSection(0, 0, SNAPSHOT)), Asked(ApproveSection(0, 1, Some(1)))]

  // ---- What each step leaves ----

  ghost predicate Below(keys: set<Id>, n: nat) { forall i: Id :: i in keys <==> i < n }

  ghost predicate SourcesUpTo(st: State, n: nat)
  {
    && Below(st.sources.Keys, n) && st.runs.Keys == st.sources.Keys && st.pages == map[]
    && forall i :: i in st.sources ==> st.sources[i].caseId == 0 && st.sources[i].privilege == PrivilegeAt(i)
  }

  ghost predicate ClaimsUpTo(st: State, n: nat)
  {
    && Below(st.claims.Keys, n)
    && forall i :: i in st.claims ==> PlainClaim(st.claims[i], i)
  }

  predicate PlainClaim(c: Claim, i: Id)
  {
    c.caseId == 0 && c.sourceId == i && c.privilege == PrivilegeAt(i) && c.quoteState == LegacyUnverified
  }

  predicate NoSections(st: State) { st.sections == map[] && st.revisions == map[] }

  lemma SourceStep(st: State, i: Id) returns (next: State)
    requires SourcesUpTo(st, i) && st.claims == map[] && st.conflicts == map[] && NoSections(st)
    ensures Next(st, Asked(IngestSource(i, UploadAt(i))), next)
    ensures SourcesUpTo(next, i + 1) && next.claims == map[] && next.conflicts == map[] && NoSections(next)
  {
    hide NextRow;
    next := SourceIngest(st, COUNSEL, 0, i, UploadAt(i), 0);
  }

  lemma ClaimStep(st: State, i: Id) returns (next: State)
    requires SourcesUpTo(st, 2) && ClaimsUpTo(st, i) && i < 2 && st.conflicts == map[] && NoSections(st)
    ensures Next(st, Asked(ExtractClaim(i, ClaimAt(i))), next)
    ensures SourcesUpTo(next, 2) && ClaimsUpTo(next, i + 1) && next.conflicts == map[] && NoSections(next)
  {
    hide NextRow, ComputeEligibility;
    assert i in st.sources;
    next := ClaimExtract(st, COUNSEL, 0, i, ClaimAt(i), 0);
  }

  lemma AuditChangesNothing(st: State, event: AuditEvent)
    requires NoSections(st)
    ensures Audited(st, 0, event) == st.(audit := Audited(st, 0, event).audit)
  {
    hide NextRow;
  }

  function Reassessed(claims: map<Id, Claim>, conflicts: map<Id, Conflict>): map<Id, Claim>
    requires 0 in claims && 1 in claims
  {
    Settled(conflicts, Touched(Touched(claims, 0, COUNSEL.name, 0), 1, COUNSEL.name, 0))
  }

  lemma ReassessedArePlain(st: State, next: State)
    requires ClaimsUpTo(st, 2) && 0 in st.claims && 1 in st.claims && next.claims == Reassessed(st.claims, next.conflicts)
    ensures ClaimsUpTo(next, 2)
  {
    hide StatusOf, EligibilityOf;
  }

  lemma FlagStep(st: State) returns (next: State)
    requires SourcesUpTo(st, 2) && ClaimsUpTo(st, 2) && st.conflicts == map[] && NoSections(st)
    ensures Next(st, Asked(FlagConflict(0, PAIR)), next)
    ensures SourcesUpTo(next, 2) && ClaimsUpTo(next, 2) && NoSections(next)
    ensures next.conflicts == map[0 := ConflictOpened(0, PAIR, 0)]
  {
    hide Audited, Settled, Touched, StatusEvent;
    assert 0 in st.claims && 1 in st.claims;
    assert FlagRefusal(st, COUNSEL, 0, PAIR).None?;
    var conflicts := st.conflicts[0 := ConflictOpened(0, PAIR, 0)];
    var claims := Reassessed(st.claims, conflicts);
    var s0 := st.(conflicts := conflicts, claims := claims);
    AuditChangesNothing(s0, StatusEvent(st.claims, claims, COUNSEL, 0, 0, 0));
    var s1 := Audited(s0, 0, StatusEvent(st.claims, claims, COUNSEL, 0, 0, 0));
    AuditChangesNothing(s1, StatusEvent(st.claims, claims, COUNSEL, 0, 1, 0));
    var s2 := Audited(s1, 0, StatusEvent(st.claims, claims, COUNSEL, 0, 1, 0));
    AuditChangesNothing(s2, Event(COUNSEL, 0, 0, ConflictFlagged, OnConflict, 0, true));
    next := Flagged(st, COUNSEL, 0, 0, PAIR, 0);
    assert next.claims == claims && next.sources == st.sources;
    ReassessedArePlain(st, next);
  }

  // The pair preserved on both sides.
  ghost predicate PairPreserved(st: State)
  {
    && st.conflicts.Keys == {0}
    && var f := st.conflicts[0];
       && f.caseId == 0 && f.a == 0 && f.b == 1 && f.status == PreservedBoth
       && f.dispositionA == Preserved && f.dispositionB == Preserved
  }

  // Claim 0 is fit to be cited and has claim 1 to disclose.
  ghost predicate Citable(st: State)
  {
    0 in st.claims && st.claims[0].status == Preserved && st.claims[0].eligibility == Eligible
  }

  lemma DecideStep(st: State) returns (next: State)
    requires SourcesUpTo(st, 2) && ClaimsUpTo(st, 2) && st.conflicts == map[0 := ConflictOpened(0, PAIR, 0)] && NoSections(st)
    ensures Next(st, Asked(DecideConflict(RULING)), next)
    ensures SourcesUpTo(next, 2) && ClaimsUpTo(next, 2) && NoSections(next) && PairPreserved(next)
  {
    hide Audited, AuditedIfChanged, Settled, Touched, StatusEvent, RecordOf, NextRow;
    assert 0 in st.claims && 1 in st.claims;
    assert DecideRefusal(st, COUNSEL, 0, RULING).None?;
    var f := st.conflicts[0];
    var conflicts := st.conflicts[0 := ConflictDecided(f, RULING)];
    var claims := Reassessed(st.claims, conflicts);
    var s0 := st.(conflicts := conflicts, claims := claims);
    ChangeChangesNothing(s0, st.claims, 0);
    var s1 := AuditedIfChanged(s0, st.claims, COUNSEL, 0, 0, 0);
    ChangeChangesNothing(s1, st.claims, 1);
    var s2 := AuditedIfChanged(s1, st.claims, COUNSEL, 0, 1, 0);
    AuditChangesNothing(Ruled(s2, st, COUNSEL, 0, RULING, 0),
                        Event(COUNSEL, 0, 0, DecisionMade(PreserveBoth), OnConflict, 0, false));
    next := Decided(st, COUNSEL, 0, RULING, 0);
    assert next.claims == claims && next.sources == st.sources;
    ReassessedArePlain(st, next);
  }

  lemma ChangeChangesNothing(st: State, before: map<Id, Claim>, c: Id)
    requires c in before && c in st.claims && NoSections(st)
    ensures var next := AuditedIfChanged(st, before, COUNSEL, 0, c, 0); next == st.(audit := next.audit)
  {
    hide Audited, StatusEvent;
    AuditChangesNothing(st, StatusEvent(before, st.claims, COUNSEL, 0, c, 0));
  }

  lemma PreservedIsCitable(st: State)
    requires CachesAgree(st) && ClaimsUpTo(st, 2) && PairPreserved(st)
    ensures Citable(st)
  {
    hide StatusOf, ComputeEligibility;
    assert 0 in st.claims;
    assert st.claims[0] == Recomputed(st.conflicts, 0, st.claims[0]);
    StatusIsMostDecisive(st.conflicts, 0);
    assert 0 in Incident(st.conflicts, 0);
    assert st.conflicts[0].DispositionOf(0) == Preserved;
    assert RelatedStatuses(st.conflicts, 0) == {PreservedBoth};
  }

  ghost predicate SectionStands(st: State)
  {
    0 in st.sections && st.sections[0].caseId == 0 && st.sections[0].snapshot == SNAPSHOT && st.sections[0].version == 1
  }

  lemma SnapshotAccepted(st: State)
    requires ClaimsUpTo(st, 2) && NoSections(st)
    ensures SnapshotRefusal(st, COUNSEL, 0, SNAPSHOT, None).None?
  {
    assert 0 in st.claims;
    assert Elements(SNAPSHOT.cites) == {0};
    assert forall c :: c in SNAPSHOT.cites ==> c == 0;
  }

  lemma DraftStep(st: State) returns (next: State)
    requires ClaimsUpTo(st, 2) && NoSections(st)
    ensures Next(st, Asked(DraftSection(0, 0, SNAPSHOT)), next)
    ensures SectionStands(next) && next.revisions.Keys == {0}
    ensures next.sources == st.sources && next.claims == st.claims && next.conflicts == st.conflicts
  {
    hide NextRow, SnapshotRefusal, RevisionOf, NextPosition;
    SnapshotAccepted(st);
    next := Drafted(st, COUNSEL, 0, 0, 0, SNAPSHOT, 0);
  }

  lemma ImpactIsClear(st: State)
    requires ClaimsUpTo(st, 2) && PairPreserved(st) && Citable(st)
    ensures ImpactOf(st, [0]).status in {SectionEligible, WithDisclosure}
  {
    hide EvidenceIds, CitedViews;
    var edges := PreservedEdges(st.conflicts);
    var evidence := EvidenceOf(st.conflicts, [0]);
    ClosureIsLeast(edges, [0], {0, 1});
    assert Neighbours(edges, {0, 1}) <= {0, 1};
    assert Elements(evidence) <= {0, 1};
    forall v | v in CitedViews(st, evidence, Elements([0])) ensures v.eligibility == Eligible {
      assert Viewed(st, evidence, Elements([0]), v);
      assert v.id in Elements(evidence);
    }
  }

  lemma ApproveStep(st: State) returns (next: State)
    requires ClaimsUpTo(st, 2) && PairPreserved(st) && Citable(st) && SectionStands(st) && st.revisions.Keys == {0}
    ensures Next(st, Asked(ApproveSection(0, 1, Some(1))), next)
    ensures 0 in next.sections && next.sections[0].caseId == 0 && next.sections[0].snapshot == SNAPSHOT
    ensures next.sections[0].approvalCurrent
    ensures next.sources == st.sources && next.claims == st.claims && next.conflicts == st.conflicts
  {
    hide NextRow, ImpactOf, EvidenceDigest, RevisionOf, Citable, ClaimsUpTo, PairPreserved;
    ImpactIsClear(st);
    next := Approved(st, COUNSEL, 0, 0, 1, Some(1), 0);
  }

  // ---- The run ----

  lemma ExampleRun() returns (states: seq<State>)
    ensures |states| == 9 && Run(states, REQUESTS) && states[0] == EMPTY
    ensures ClaimsUpTo(states[8], 2) && PairPreserved(states[8]) && Citable(states[8])
    ensures 0 in states[8].sections && states[8].sections[0].caseId == 0 && states[8].sections[0].snapshot == SNAPSHOT
    ensures states[8].sections[0].approvalCurrent
  {
    hide Run, Next, Valid, CachesAgree, SourcesUpTo, ClaimsUpTo, NoSections, PairPreserved, Citable, SectionStands, Asked;
    states := [EMPTY];
    EmptyRun();
    var next := SourceStep(EMPTY, 0);
    states := RunSnoc(states, next);
    next := SourceStep(next, 1);
    states := RunSnoc(states, next);
    assert ClaimsUpTo(next, 0) by { NoClaimsYet(next); }
    next := ClaimStep(next, 0);
    states := RunSnoc(states, next);
    next := ClaimStep(next, 1);
    states := RunSnoc(states, next);
    next := FlagStep(next);
    states := RunSnoc(states, next);
    next := DecideStep(next);
    states := RunSnoc(states, next);
    EveryRunStateAgrees(states, 6);
    PreservedIsCitable(next);
    var drafted := DraftStep(next);
    EvidenceKept(next, drafted);
    states := RunSnoc(states, drafted);
    next := ApproveStep(drafted);
    EvidenceKept(drafted, next);
    states := RunSnoc(states, next);
    assert REQUESTS[..8] == REQUESTS;
  }

  lemma EmptyRun()
    ensures Run([EMPTY], REQUESTS[..0]) && SourcesUpTo(EMPTY, 0) && NoSections(EMPTY)
  {
    EmptyIsValid();
    assert EMPTY.sources.Keys == {} && EMPTY.runs.Keys == {};
  }

  lemma NoClaimsYet(st: State)
    requires st.claims == map[]
    ensures ClaimsUpTo(st, 0)
  {
    assert st.claims.Keys == {};
  }

  lemma RunSnoc(states: seq<State>, next: State) returns (longer: seq<State>)
    requires 0 < |states| <= |REQUESTS| && Run(states, REQUESTS[..|states| - 1])
    requires Next(states[|states| - 1], REQUESTS[|states| - 1], next)
    ensures longer == states + [next] && Run(longer, REQUESTS[..|states|])
  {
    hide Next, Valid, Asked;
    longer := states + [next];
  }

  lemma EveryRunStateAgrees(states: seq<State>, n: nat)
    requires n < |states| <= |REQUESTS| + 1 && Run(states, REQUESTS[..|states| - 1])
    ensures CachesAgree(states[n])
  {
    hide Run, Valid;
    EveryStateIsValid(states, REQUESTS[..|states| - 1], n);
    ValidCaches(states[n]);
  }

  lemma EvidenceKept(st: State, next: State)
    requires ClaimsUpTo(st, 2) && PairPreserved(st) && Citable(st)
    requires next.claims == st.claims && next.conflicts == st.conflicts
    ensures ClaimsUpTo(next, 2) && PairPreserved(next) && Citable(next)
  {
  }

  lemma ValidCaches(st: State)
    requires Valid(st)
    ensures CachesAgree(st)
  {
  }

  lemma {:induction false} ThingOfPlan(st: State, plans: seq<Plan>, i: nat, t: Thing)
    requires i < |plans| && t in PlanThings(st, Packets.Production, plans[i])
    ensures t in AllThings(st, Packets.Production, plans)
  {
    hide PlanThings;
    var n := |plans| - 1;
    if i < n { ThingOfPlan(st, plans[..n], i, t); }
  }

  lemma SectionIsPlanned(st: State, k: Id, s: Id) returns (i: nat)
    requires s in st.sections && st.sections[s].caseId == k
    ensures i < |PlansIn(st, k, Packets.Production)| && PlansIn(st, k, Packets.Production)[i] == PlanOf(st, Packets.Production, s)
  {
    hide PlanOf;
    var ids := set x | x in st.sections && st.sections[x].caseId == k;
    SortedByFacts(ids, map x | x in ids :: st.sections[x].position);
    assert s in SectionsInOrder(st, k);
    i := IndexOf(SectionsInOrder(st, k), s);
    SectionsListed(st, k);
  }

  // The section is produced and discloses the conflict; its withheld side stands
  // there as a numbered reference, which the privilege log lists under document 1.
  lemma ExampleProduction() returns (states: seq<State>, n: nat)
    ensures |states| == 9 && Run(states, REQUESTS) && states[0] == EMPTY && 0 in states[8].sections
    ensures var st := states[8]; var plan, p := PlanOf(st, Packets.Production, 0), PacketOf(st, 0, Packets.Production);
      && plan.disposition == Included && 0 in plan.disclosed
      && Mentions(p, WithheldClaim(1), n) && Logged(p.log, 1, n)
  {
    hide Run, PlanOf, PacketOf, Mentions, Logged, Ready, TouchesOpenly, ClaimsUpTo, EvidenceOf, Valid;
    states := ExampleRun();
    var st := states[8];
    EmptyIsReady();
    EveryStateIsValid(states, REQUESTS, 8);
    EveryApprovalIsClean(states, REQUESTS, 8);
    assert Ready(st) by { ReadyMeans(st); }
    ProductionFollowsApproval(st, 0);
    DisclosureIsComplete(st, 0);
    assert 0 in PlanOf(st, Packets.Production, 0).disclosed by {
      PairIsTouched(st);
      assert st.sections[0].snapshot.cites == [0];
    }
    WithheldSideIsNumbered(st);
    n := IndexOf(RefsIn(st, 0, Packets.Production), WithheldClaim(1)) + 1;
    MentionsAreNumbered(st, 0, WithheldClaim(1), n);
    SideIsOfDocument(st);
    LogIsExact(st, 0, 1, n);
  }

  lemma ReadyMeans(st: State)
    requires Valid(st) && ApprovalsClean(st)
    ensures Ready(st)
  {
  }

  lemma PairIsTouched(st: State)
    requires ClaimsUpTo(st, 2) && PairPreserved(st)
    ensures 0 in st.conflicts && TouchesOpenly(st, 0, EvidenceOf(st.conflicts, [0]))
  {
    hide EvidenceIds;
    ClosureIsLeast(PreservedEdges(st.conflicts), [0], {});
    assert 0 in Elements([0]) by { assert [0][0] == 0; }
    assert 0 in Elements(EvidenceOf(st.conflicts, [0]));
    assert 0 in st.claims && !Withheld(st, 0) && st.conflicts[0].Touches(0);
  }

  lemma SideIsOfDocument(st: State)
    requires ClaimsUpTo(st, 2) && Valid(st)
    ensures Withheld(st, 1) && StandsFor(st, WithheldClaim(1), 1)
  {
    assert 1 in st.claims && ClaimsRooted(st);
  }

  lemma WithheldSideIsNumbered(st: State)
    requires ClaimsUpTo(st, 2) && PairPreserved(st) && Valid(st) && 0 in st.sections && st.sections[0].caseId == 0
    requires PlanOf(st, Packets.Production, 0).disposition == Included && 0 in PlanOf(st, Packets.Production, 0).disclosed
    ensures WithheldClaim(1) in RefsIn(st, 0, Packets.Production)
  {
    hide PlanOf, Valid, ClaimsUpTo, PlansIn;
    SideIsOfDocument(st);
    var plan := PlanOf(st, Packets.Production, 0);
    var j := IndexOf(plan.disclosed, 0);
    assert ThingOfConflict(st, plan.disclosed[j], WithheldClaim(1));
    DisclosureThingsAre(st, plan.disclosed, WithheldClaim(1));
    var i := SectionIsPlanned(st, 0, 0);
    ThingOfPlan(st, PlansIn(st, 0, Packets.Production), i, WithheldClaim(1));
  }
}
