// What a refusal tells a reviewer, in its words, about rows they may not see.

module Visibility {
  import opened Basics
  import opened Domain
  import opened Evidence
  import opened Approval
  import opened Steps
  import opened Soundness
  import opened Runs
  import opened Production

  // ---- What a reviewer sees, over all their matters ----

  predicate SourceSeen(st: State, actor: Actor, s: Id)
  {
    && s in st.sources && actor.Member(st.sources[s].caseId)
    && VisibleTo(actor.roles[st.sources[s].caseId], st.sources[s].privilege)
  }

  predicate PageSeen(st: State, actor: Actor, p: Id)
  {
    p in st.pages && SourceSeen(st, actor, st.pages[p].sourceId)
  }

  // A conflict is seen when both its sides are, a section when all it cites is.
  predicate ConflictSeen(st: State, actor: Actor, f: Id)
  {
    && f in st.conflicts && actor.Member(st.conflicts[f].caseId)
    && ClaimSeen(st, actor, st.conflicts[f].a) && ClaimSeen(st, actor, st.conflicts[f].b)
  }

  predicate SectionSeen(st: State, actor: Actor, s: Id)
  {
    && s in st.sections && actor.Member(st.sections[s].caseId)
    && forall c :: c in st.sections[s].snapshot.cites ==> ClaimSeen(st, actor, c)
  }

  predicate SourceSame(one: State, two: State, actor: Actor, s: Id)
  {
    && (SourceSeen(one, actor, s) <==> SourceSeen(two, actor, s))
    && (SourceSeen(one, actor, s) ==> one.sources[s] == two.sources[s])
  }

  predicate PageSame(one: State, two: State, actor: Actor, p: Id)
  {
    && (PageSeen(one, actor, p) <==> PageSeen(two, actor, p))
    && (PageSeen(one, actor, p) ==> one.pages[p] == two.pages[p])
  }

  predicate ClaimSame(one: State, two: State, actor: Actor, c: Id)
  {
    && (ClaimSeen(one, actor, c) <==> ClaimSeen(two, actor, c))
    && (ClaimSeen(one, actor, c) ==>
          && one.claims[c] == two.claims[c]
          && AuthorOf(one.AuditOf(one.claims[c].caseId), c) == AuthorOf(two.AuditOf(one.claims[c].caseId), c))
  }

  predicate ConflictSame(one: State, two: State, actor: Actor, f: Id)
  {
    && (ConflictSeen(one, actor, f) <==> ConflictSeen(two, actor, f))
    && (ConflictSeen(one, actor, f) ==> one.conflicts[f] == two.conflicts[f])
  }

  predicate SectionSame(one: State, two: State, actor: Actor, s: Id)
  {
    && (SectionSeen(one, actor, s) <==> SectionSeen(two, actor, s))
    && (SectionSeen(one, actor, s) ==> one.sections[s] == two.sections[s])
  }

  // The two stores differ only in rows the reviewer may not see.
  ghost predicate SeenAlike(one: State, two: State, actor: Actor)
  {
    && (forall s :: SourceSame(one, two, actor, s))
    && (forall p :: PageSame(one, two, actor, p))
    && (forall c :: ClaimSame(one, two, actor, c))
    && (forall f :: ConflictSame(one, two, actor, f))
    && (forall s :: SectionSame(one, two, actor, s))
  }

  lemma AlikeBothWays(one: State, two: State, actor: Actor)
    requires SeenAlike(one, two, actor)
    ensures SeenAlike(two, one, actor)
  {
    hide SourceSeen, PageSeen, ClaimSeen, ConflictSeen, SectionSeen, AuthorOf;
    forall s ensures SourceSame(two, one, actor, s) { assert SourceSame(one, two, actor, s); }
    forall p ensures PageSame(two, one, actor, p) { assert PageSame(one, two, actor, p); }
    forall c ensures ClaimSame(two, one, actor, c) { assert ClaimSame(one, two, actor, c); }
    forall f ensures ConflictSame(two, one, actor, f) { assert ConflictSame(one, two, actor, f); }
    forall s ensures SectionSame(two, one, actor, s) { assert SectionSame(one, two, actor, s); }
  }

  // ---- Sources: hidden in the matter is as good as missing, elsewhere is not ----

  predicate SourceStoredElsewhere(st: State, k: Id, s: Id) { s in st.sources && st.sources[s].caseId != k }

  // The answer to a new claim gives away exactly whether the source it names is
  // stored under another matter.
  lemma ClaimRefusalTellsElsewhere(one: State, two: State, actor: Actor, k: Id, input: NewClaim)
    requires actor.Member(k) && SeenAlike(one, two, actor)
    ensures ClaimRefusal(one, actor, k, input) == ClaimRefusal(two, actor, k, input) <==>
              (SourceStoredElsewhere(one, k, input.sourceId) <==> SourceStoredElsewhere(two, k, input.sourceId))
  {
    hide EvaluateQuote, AuthorOf, ClaimSame, ConflictSame, SectionSame;
    assert SourceSame(one, two, actor, input.sourceId);
    if SourceSeen(one, actor, input.sourceId) && input.pageId.Some? {
      assert PageSame(one, two, actor, input.pageId.value);
    }
  }

  // For instance: a reviewer of matter 0, and source 7 of matter 9.
  lemma SourceOfAnotherMatterIsTold(source: Source, input: NewClaim)
    requires source.caseId == 9 && input.sourceId == 7
    ensures var reviewer, with := Actor(1, "Reviewer", map[0 := ClaimsReviewer]), EMPTY.(sources := map[7 := source]);
      && SeenAlike(EMPTY, with, reviewer)
      && ClaimRefusal(EMPTY, reviewer, 0, input) == Some(SourceMissing)
      && ClaimRefusal(with, reviewer, 0, input) == Some(SourceElsewhere)
  {
  }

  // ---- Claims: hidden is as good as missing, in every matter ----

  lemma OpenPairsSeen(one: State, two: State, actor: Actor, k: Id, a: Id, b: Id, f: Id)
    requires actor.Member(k) && ConflictSame(one, two, actor, f) && ClaimSeen(one, actor, a) && ClaimSeen(one, actor, b)
    ensures f in OpenPairs(one.conflicts, k, a, b) ==> f in OpenPairs(two.conflicts, k, a, b)
  {
    hide ClaimSeen;
  }

  lemma OpenPairsAlike(one: State, two: State, actor: Actor, k: Id, a: Id, b: Id)
    requires actor.Member(k) && SeenAlike(one, two, actor) && ClaimSeen(one, actor, a) && ClaimSeen(one, actor, b)
    ensures OpenPairs(one.conflicts, k, a, b) == OpenPairs(two.conflicts, k, a, b)
  {
    hide SourceSame, PageSame, SectionSame, ConflictSame, ClaimSeen, OpenPairs;
    AlikeBothWays(one, two, actor);
    assert ClaimSame(one, two, actor, a) && ClaimSame(one, two, actor, b);
    forall f ensures f in OpenPairs(one.conflicts, k, a, b) <==> f in OpenPairs(two.conflicts, k, a, b) {
      OpenPairsSeen(one, two, actor, k, a, b, f);
      OpenPairsSeen(two, one, actor, k, a, b, f);
    }
  }

  lemma FlagRefusalTellsNothing(one: State, two: State, actor: Actor, k: Id, input: NewConflict)
    requires actor.Member(k) && SeenAlike(one, two, actor)
    ensures FlagRefusal(one, actor, k, input) == FlagRefusal(two, actor, k, input)
  {
    hide AuthorOf, SourceSame, PageSame, SectionSame, ConflictSame, OpenPairs, First;
    assert ClaimSame(one, two, actor, input.a) && ClaimSame(one, two, actor, input.b);
    if ClaimSeen(one, actor, input.a) && ClaimSeen(one, actor, input.b) {
      OpenPairsAlike(one, two, actor, k, input.a, input.b);
    }
  }

  lemma {:induction false} FirstUnknownAlike(one: State, two: State, actor: Actor, k: Id, cites: seq<Id>)
    requires actor.Member(k) && SeenAlike(one, two, actor)
    ensures FirstUnknown(one, actor, k, cites) == FirstUnknown(two, actor, k, cites)
  {
    hide SourceSame, PageSame, SectionSame, ConflictSame, AuthorOf;
    if cites != [] {
      assert ClaimSame(one, two, actor, cites[0]);
      FirstUnknownAlike(one, two, actor, k, cites[1..]);
    }
  }

  // A citation the reviewer may not read is answered as a missing one. What a
  // section's refusal gives away is exactly the title over its paragraph
  // reference, hidden or not: that check comes before the citations.
  lemma SnapshotRefusalTellsTitles(one: State, two: State, actor: Actor, k: Id, snapshot: Snapshot, editing: Option<Id>)
    requires actor.Member(k) && SeenAlike(one, two, actor)
    ensures SnapshotRefusal(one, actor, k, snapshot, editing) == SnapshotRefusal(two, actor, k, snapshot, editing) <==>
              TitleOver(one, k, snapshot.paragraphRef, editing) == TitleOver(two, k, snapshot.paragraphRef, editing)
  {
    hide SeenAlike, TitleOver, FirstUnknown;
    FirstUnknownAlike(one, two, actor, k, snapshot.cites);
  }

  // For instance: section 3 of matter 0, hidden for citing a withheld claim, under
  // either of two titles.
  lemma HiddenTitleIsTold(claim: Claim, section: Section, title: string, snapshot: Snapshot)
    requires claim.caseId == 0 && claim.privilege.Withholding()
    requires section.caseId == 0 && section.snapshot.cites == [5] && snapshot.paragraphRef == section.snapshot.paragraphRef
    ensures var renamed := section.(snapshot := section.snapshot.(title := title));
            var reviewer := Actor(1, "Reviewer", map[0 := ClaimsReviewer]);
            var base := EMPTY.(claims := map[5 := claim]);
            var one, two := base.(sections := map[3 := section]), base.(sections := map[3 := renamed]);
      && SeenAlike(one, two, reviewer)
      && SnapshotRefusal(one, reviewer, 0, snapshot, None) == Some(ReferenceUsed(section.snapshot.title))
      && SnapshotRefusal(two, reviewer, 0, snapshot, None) == Some(ReferenceUsed(title))
  {
    hide Sorted;
    var renamed := section.(snapshot := section.snapshot.(title := title));
    var base := EMPTY.(claims := map[5 := claim]);
    OnlyHolder(base.(sections := map[3 := section]), 0, snapshot.paragraphRef, 3);
    OnlyHolder(base.(sections := map[3 := renamed]), 0, snapshot.paragraphRef, 3);
    assert 5 in section.snapshot.cites && 5 in renamed.snapshot.cites;
  }

  lemma OnlyHolder(st: State, k: Id, reference: string, s: Id)
    requires Holders(st.sections, k, reference, None) == {s}
    ensures TitleOver(st, k, reference, None) == Some(st.sections[s].snapshot.title)
  {
    hide Sorted;
    FirstIsIn({s});
  }

  lemma FirstIsIn(ids: set<Id>)
    requires ids != {}
    ensures First(ids) in ids
  {
    hide SortedBy;
    SortedFacts(ids);
    assert Sorted(ids)[0] in Sorted(ids);
  }

  // ---- Hidden conflicts are told from missing ones ----

  // A decision on a hidden conflict of the matter is refused, but never in the
  // words for a missing one, and a wrong version is told the right one.
  lemma HiddenConflictShows(st: State, actor: Actor, k: Id, input: Ruling)
    requires actor.Member(k) && ConflictsRooted(st)
    requires input.conflictId in st.conflicts && st.conflicts[input.conflictId].caseId == k
    requires !ConflictSeen(st, actor, input.conflictId)
    ensures var f := st.conflicts[input.conflictId];
            if f.version != input.expectedVersion then DecideRefusal(st, actor, k, input) == Some(ConflictStale(f.version))
            else DecideRefusal(st, actor, k, input)
                 in {Some(DecisionNeedsSenior), Some(NoClaimSelected), Some(ClaimNotInConflict), Some(EvidenceNeedsClearance)}
  {
    assert ConflictRooted(st.claims, st.conflicts[input.conflictId]);
  }

  // The answer is that for a missing conflict exactly when it is stored nowhere:
  // a conflict of another matter is told apart as well.
  lemma MissingConflictIsToldApart(st: State, actor: Actor, k: Id, input: Ruling)
    requires actor.Member(k)
    ensures DecideRefusal(st, actor, k, input) == DecideRefusal(st.(conflicts := st.conflicts - {input.conflictId}), actor, k, input)
            <==> input.conflictId !in st.conflicts
  {
  }

  // Nor is a hidden section, or one of another matter, to be revised or approved.
  lemma MissingSectionIsToldApart(st: State, actor: Actor, k: Id, id: Id, version: Option<nat>)
    requires actor.Member(k)
    ensures var without := st.(sections := st.sections - {id});
      && (SectionRefusal(st, actor, k, id, version) == SectionRefusal(without, actor, k, id, version) <==> id !in st.sections)
      && (ApproveRefusal(st, actor, k, id, version) == ApproveRefusal(without, actor, k, id, version) <==> id !in st.sections)
  {
    hide ImpactOf;
  }

  // ---- Every refusal ----

  predicate SourceNotHiddenElsewhere(st: State, actor: Actor, k: Id, s: Id)
  {
    SourceStoredElsewhere(st, k, s) ==> SourceSeen(st, actor, s)
  }

  ghost predicate ReferencesSeen(st: State, actor: Actor, k: Id, reference: string, editing: Option<Id>)
  {
    forall s :: HoldsReference(st.sections, k, reference, editing, s) ==> SectionSeen(st, actor, s)
  }

  predicate SectionNotHidden(st: State, actor: Actor, s: Id) { s in st.sections ==> SectionSeen(st, actor, s) }

  // The command names no hidden conflict or section, no hidden source of another
  // matter, and no paragraph reference of a hidden section.
  ghost predicate MeetsNothingHidden(st: State, actor: Actor, k: Id, cmd: Command)
  {
    match cmd
    case ExtractClaim(_, claim) => SourceNotHiddenElsewhere(st, actor, k, claim.sourceId)
    case DecideConflict(r) => r.conflictId in st.conflicts ==> ConflictSeen(st, actor, r.conflictId)
    case DraftSection(_, _, snapshot) => ReferencesSeen(st, actor, k, snapshot.paragraphRef, None)
    case ReviseSection(s, _, _, snapshot, _) =>
      SectionNotHidden(st, actor, s) && ReferencesSeen(st, actor, k, snapshot.paragraphRef, Some(s))
    case ApproveSection(s, _, _) => SectionNotHidden(st, actor, s)
    case _ => true
  }

  lemma ClaimRefusalAlike(one: State, two: State, actor: Actor, k: Id, input: NewClaim)
    requires actor.Member(k) && SeenAlike(one, two, actor)
    requires SourceNotHiddenElsewhere(one, actor, k, input.sourceId) && SourceNotHiddenElsewhere(two, actor, k, input.sourceId)
    ensures ClaimRefusal(one, actor, k, input) == ClaimRefusal(two, actor, k, input)
  {
    hide ClaimRefusal, PageSame, ClaimSame, ConflictSame, SectionSame;
    assert SourceSame(one, two, actor, input.sourceId);
    ClaimRefusalTellsElsewhere(one, two, actor, k, input);
  }

  lemma HoldersSeen(one: State, two: State, actor: Actor, k: Id, reference: string, editing: Option<Id>, s: Id)
    requires SectionSame(one, two, actor, s) && ReferencesSeen(one, actor, k, reference, editing)
    ensures HoldsReference(one.sections, k, reference, editing, s) ==>
              && HoldsReference(two.sections, k, reference, editing, s)
              && two.sections[s].snapshot.title == one.sections[s].snapshot.title
  {
    hide ClaimSeen;
  }

  lemma TitlesAlike(one: State, two: State, actor: Actor, k: Id, reference: string, editing: Option<Id>)
    requires SeenAlike(one, two, actor)
    requires ReferencesSeen(one, actor, k, reference, editing) && ReferencesSeen(two, actor, k, reference, editing)
    ensures TitleOver(one, k, reference, editing) == TitleOver(two, k, reference, editing)
  {
    hide SourceSame, PageSame, ClaimSame, ConflictSame, SectionSame, ReferencesSeen, First;
    AlikeBothWays(one, two, actor);
    forall s
      ensures HoldsReference(one.sections, k, reference, editing, s) <==> HoldsReference(two.sections, k, reference, editing, s)
      ensures HoldsReference(one.sections, k, reference, editing, s) ==>
                two.sections[s].snapshot.title == one.sections[s].snapshot.title
    {
      HoldersSeen(one, two, actor, k, reference, editing, s);
      HoldersSeen(two, one, actor, k, reference, editing, s);
    }
    var held := Holders(one.sections, k, reference, editing);
    assert held == Holders(two.sections, k, reference, editing);
    if held != {} { FirstIsIn(held); }
  }

  lemma SnapshotRefusalAlike(one: State, two: State, actor: Actor, k: Id, snapshot: Snapshot, editing: Option<Id>)
    requires actor.Member(k) && SeenAlike(one, two, actor)
    requires ReferencesSeen(one, actor, k, snapshot.paragraphRef, editing)
    requires ReferencesSeen(two, actor, k, snapshot.paragraphRef, editing)
    ensures SnapshotRefusal(one, actor, k, snapshot, editing) == SnapshotRefusal(two, actor, k, snapshot, editing)
  {
    hide SeenAlike, ReferencesSeen, SnapshotRefusal, TitleOver;
    TitlesAlike(one, two, actor, k, snapshot.paragraphRef, editing);
    SnapshotRefusalTellsTitles(one, two, actor, k, snapshot, editing);
  }

  lemma DecideRefusalAlike(one: State, two: State, actor: Actor, k: Id, input: Ruling)
    requires actor.Member(k) && SeenAlike(one, two, actor)
    requires MeetsNothingHidden(one, actor, k, DecideConflict(input)) && MeetsNothingHidden(two, actor, k, DecideConflict(input))
    ensures DecideRefusal(one, actor, k, input) == DecideRefusal(two, actor, k, input)
  {
    hide SourceSame, PageSame, SectionSame, AuthorOf, OpenPairs;
    assert ConflictSame(one, two, actor, input.conflictId);
    if ConflictSeen(one, actor, input.conflictId) {
      var f := one.conflicts[input.conflictId];
      assert ClaimSame(one, two, actor, f.a) && ClaimSame(one, two, actor, f.b);
      OpenPairsAlike(one, two, actor, k, f.a, f.b);
    }
  }

  lemma AttestRefusalAlike(one: State, two: State, actor: Actor, k: Id, claim: Id)
    requires actor.Member(k) && SeenAlike(one, two, actor)
    ensures AttestRefusal(one, actor, k, claim) == AttestRefusal(two, actor, k, claim)
  {
    hide SourceSame, PageSame, SectionSame, ConflictSame, AuthorOf;
    assert ClaimSame(one, two, actor, claim);
  }

  // A cleared role sees all the evidence of its matter.
  lemma ClearedSeesEvidence(one: State, two: State, actor: Actor, k: Id)
    requires Valid(one) && Valid(two) && actor.Member(k) && Cleared(actor.roles[k]) && SeenAlike(one, two, actor)
    ensures SameEvidence(one, two, ClaimsOfCase(one, k))
  {
    hide SourceSame, PageSame, SectionSame, ClaimSame, ConflictSame, AuthorOf, SectionsRooted, CachesAgree, LinesKept,
         LogsLinked, ApprovalsHonest;
    var region := ClaimsOfCase(one, k);
    forall c | c in region ensures SameClaimAndSource(one, two, c) {
      ClearedSeesClaim(one, two, actor, k, c);
    }
    forall f | f in one.conflicts && Meets(one.conflicts[f], region)
      ensures f in two.conflicts && one.conflicts[f] == two.conflicts[f]
      ensures one.conflicts[f].a in region && one.conflicts[f].b in region
    {
      assert ConflictRooted(one.claims, one.conflicts[f]);
      ClearedSeesConflict(one, two, actor, k, f);
    }
    forall f | f in two.conflicts && Meets(two.conflicts[f], region)
      ensures f in one.conflicts && one.conflicts[f] == two.conflicts[f]
    {
      assert ConflictRooted(two.claims, two.conflicts[f]);
      var c := if two.conflicts[f].a in region then two.conflicts[f].a else two.conflicts[f].b;
      ClearedSeesClaim(one, two, actor, k, c);
      AlikeBothWays(one, two, actor);
      ClearedSeesConflict(two, one, actor, k, f);
    }
  }

  lemma ClearedSeesClaim(one: State, two: State, actor: Actor, k: Id, c: Id)
    requires ClaimsRooted(one) && actor.Member(k) && Cleared(actor.roles[k]) && SeenAlike(one, two, actor)
    requires c in one.claims && one.claims[c].caseId == k
    ensures c in two.claims && two.claims[c] == one.claims[c]
    ensures SameClaimAndSource(one, two, c)
  {
    hide PageSame, SectionSame, ConflictSame, AuthorOf;
    assert ClaimSame(one, two, actor, c);
    assert SourceSame(one, two, actor, one.claims[c].sourceId);
  }

  lemma ClearedSeesConflict(one: State, two: State, actor: Actor, k: Id, f: Id)
    requires actor.Member(k) && Cleared(actor.roles[k]) && SeenAlike(one, two, actor)
    requires f in one.conflicts && one.conflicts[f].caseId == k && ConflictRooted(one.claims, one.conflicts[f])
    ensures f in two.conflicts && two.conflicts[f] == one.conflicts[f]
  {
    hide PageSame, SectionSame, SourceSame, ClaimSame;
    assert ConflictSame(one, two, actor, f);
  }

  lemma ApproveRefusalAlike(one: State, two: State, actor: Actor, k: Id, id: Id, version: Option<nat>)
    requires Valid(one) && Valid(two) && actor.Member(k) && SeenAlike(one, two, actor)
    requires SectionNotHidden(one, actor, id) && SectionNotHidden(two, actor, id)
    ensures ApproveRefusal(one, actor, k, id, version) == ApproveRefusal(two, actor, k, id, version)
  {
    hide SourceSame, PageSame, ClaimSame, ConflictSame, ImpactOf, CleanDigest, EvidenceDigest, SameEvidence,
         ApprovalsHonest, CachesAgree, LinesKept, LogsLinked, ClaimsRooted, ConflictsRooted;
    assert SectionSame(one, two, actor, id);
    if id in one.sections && one.sections[id].caseId == k && Cleared(actor.roles[k]) {
      var cites := one.sections[id].snapshot.cites;
      ClearedSeesEvidence(one, two, actor, k);
      assert CitesKnown(one.claims, one.sections[id]);
      DigestFrame(one, two, ClaimsOfCase(one, k), cites);
      ImpactReadsDigest(one, cites);
      ImpactReadsDigest(two, cites);
    }
  }

  lemma SectionRefusalAlike(one: State, two: State, actor: Actor, k: Id, id: Id, version: Option<nat>)
    requires actor.Member(k) && SeenAlike(one, two, actor)
    requires SectionNotHidden(one, actor, id) && SectionNotHidden(two, actor, id)
    ensures SectionRefusal(one, actor, k, id, version) == SectionRefusal(two, actor, k, id, version)
  {
    hide SourceSame, PageSame, ClaimSame, ConflictSame;
    assert SectionSame(one, two, actor, id);
  }

  // Those are all the ways a refusal can tell of hidden rows: a command that
  // meets none of them is answered in the same words by any two stores that
  // differ only in rows its reviewer may not see.
  lemma RefusalsTellNothing(one: State, two: State, actor: Actor, k: Id, cmd: Command)
    requires Valid(one) && Valid(two) && actor.Member(k) && SeenAlike(one, two, actor)
    requires MeetsNothingHidden(one, actor, k, cmd) && MeetsNothingHidden(two, actor, k, cmd)
    ensures Refusal(one, actor, k, cmd) == Refusal(two, actor, k, cmd)
  {
    hide Valid, SeenAlike, ClaimRefusal, FlagRefusal, DecideRefusal, AttestRefusal, SnapshotRefusal, SectionRefusal,
         ApproveRefusal, ReferencesSeen, SectionNotHidden, SourceNotHiddenElsewhere;
    match cmd
    case ExtractClaim(_, claim) => ClaimRefusalAlike(one, two, actor, k, claim);
    case FlagConflict(_, conflict) => FlagRefusalTellsNothing(one, two, actor, k, conflict);
    case DecideConflict(ruling) => DecideRefusalAlike(one, two, actor, k, ruling);
    case AttestQuote(claim) => AttestRefusalAlike(one, two, actor, k, claim);
    case DraftSection(_, _, snapshot) => SnapshotRefusalAlike(one, two, actor, k, snapshot, None);
    case ReviseSection(id, _, version, snapshot, _) =>
      SectionRefusalAlike(one, two, actor, k, id, version);
      SnapshotRefusalAlike(one, two, actor, k, snapshot, Some(id));
    case ApproveSection(id, _, version) => ApproveRefusalAlike(one, two, actor, k, id, version);
    case _ =>
  }
}
