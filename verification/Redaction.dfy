// What a packet can depend on. Two stores that differ only in withheld matter
// yield the same production packet and body; two stores that agree on a matter
// yield the same packet of either kind.

module Redaction {
  import opened Basics
  import opened Domain
  import opened Evidence
  import opened Approval
  import opened Soundness
  import opened Packets
  import opened PacketBuilder
  import opened References
  import opened Bodies

  // ---- Stores alike to the reader of a packet ----

  // A claim's words matter only where they may be shown; who assessed it, how
  // its quote was checked and when, only inside the firm.
  predicate ClaimAlike(packet: PacketType, c: Claim, d: Claim)
  {
    && c.caseId == d.caseId && c.sourceId == d.sourceId && c.privilege == d.privilege
    && c.status == d.status && c.eligibility == d.eligibility
    && (packet == Internal || !c.privilege.Withholding() ==> c.content == d.content)
    && (packet == Internal ==> c.assessment == d.assessment)
  }

  predicate SourceAlike(packet: PacketType, s: Source, t: Source)
  {
    && s.identity == t.identity && s.privilege == t.privilege
    && (packet == Internal || !s.privilege.Withholding() ==> s.details == t.details)
  }

  predicate ClaimViewAlike(one: State, two: State, packet: PacketType, c: Id)
  {
    && c in one.claims && c in two.claims && ClaimAlike(packet, one.claims[c], two.claims[c])
    && var s := one.claims[c].sourceId;
       s in one.sources && s in two.sources && SourceAlike(packet, one.sources[s], two.sources[s])
       && one.sources[s].privilege == one.claims[c].privilege
  }

  // A conflict's summary matters only when both its sides may be shown.
  predicate ConflictViewAlike(one: State, two: State, packet: PacketType, region: set<Id>, f: Id)
  {
    && f in one.conflicts && f in two.conflicts && SameButSummary(one.conflicts[f], two.conflicts[f])
    && one.conflicts[f].a in region && one.conflicts[f].b in region
    && (packet == Internal || (!Withheld(one, one.conflicts[f].a) && !Withheld(one, one.conflicts[f].b)) ==>
          one.conflicts[f].summary == two.conflicts[f].summary)
  }

  ghost predicate EvidenceAlike(one: State, two: State, packet: PacketType, region: set<Id>)
  {
    && (forall c :: c in region ==> ClaimViewAlike(one, two, packet, c))
    && (forall f :: f in one.conflicts && Meets(one.conflicts[f], region) ==> ConflictViewAlike(one, two, packet, region, f))
    && (forall f :: f in two.conflicts && Meets(two.conflicts[f], region) ==> ConflictViewAlike(one, two, packet, region, f))
  }

  // The revision row may bind another digest, but not another text.
  predicate RevisionAlike(one: Option<Revision>, two: Option<Revision>)
  {
    RefOfRevision(one) == RefOfRevision(two) &&
    (one.Some? ==> one.value.content.snapshot == two.value.content.snapshot)
  }

  // What a section says matters only in a packet that prints it: production
  // prints approved sections alone, and of the others only their place and what
  // they cite has any effect.
  ghost predicate SectionSeenAlike(one: State, two: State, packet: PacketType, s: Id)
  {
    && s in one.sections && s in two.sections
    && one.sections[s].caseId == two.sections[s].caseId && one.sections[s].position == two.sections[s].position
    && one.sections[s].snapshot.cites == two.sections[s].snapshot.cites
    && (ApprovedNow(one, s) <==> ApprovedNow(two, s))
    && (packet == Internal || ApprovedNow(one, s) ==>
          && one.sections[s].snapshot == two.sections[s].snapshot
          && RevisionAlike(ActiveRevision(one, s), ActiveRevision(two, s)))
  }

  ghost predicate SectionAlike(one: State, two: State, packet: PacketType, region: set<Id>, s: Id)
  {
    && SectionSeenAlike(one, two, packet, s)
    && CitesWithin(one.sections[s].snapshot, region)
    && (ApprovedNow(one, s) ==> CitesWithin(ActiveRevision(one, s).value.content.snapshot, region))
  }

  predicate CitesWithin(snapshot: Snapshot, region: set<Id>) { Elements(snapshot.cites) <= region }

  ghost predicate Alike(one: State, two: State, packet: PacketType, k: Id, region: set<Id>)
  {
    && EvidenceAlike(one, two, packet, region)
    && (forall s :: s in one.sections && one.sections[s].caseId == k ==> SectionAlike(one, two, packet, region, s))
    && (forall s :: s in two.sections && two.sections[s].caseId == k ==> SectionAlike(one, two, packet, region, s))
    && DecisionsFor(one, k, packet) == DecisionsFor(two, k, packet)
  }

  // ---- The same plans ----

  lemma AlikeAgree(one: State, two: State, packet: PacketType, region: set<Id>)
    requires EvidenceAlike(one, two, packet, region)
    ensures AgreeOn(one.conflicts, two.conflicts, region)
  {
  }

  lemma WithheldAlike(one: State, two: State, packet: PacketType, region: set<Id>, c: Id)
    requires EvidenceAlike(one, two, packet, region) && c in region
    ensures Withheld(one, c) == Withheld(two, c)
    ensures c in one.claims && c in two.claims
    ensures one.claims[c].status == two.claims[c].status && one.claims[c].eligibility == two.claims[c].eligibility
  {
    assert ClaimViewAlike(one, two, packet, c);
  }

  lemma {:induction false} ViewsAlike(one: State, two: State, packet: PacketType, region: set<Id>, evidence: seq<Id>,
                                      direct: set<Id>)
    requires EvidenceAlike(one, two, packet, region) && Elements(evidence) <= region
    ensures CitedViews(one, evidence, direct) == CitedViews(two, evidence, direct)
  {
    hide EvidenceAlike;
    if evidence != [] {
      assert evidence[0] in Elements(evidence);
      WithheldAlike(one, two, packet, region, evidence[0]);
      assert Elements(evidence[1..]) <= Elements(evidence);
      ViewsAlike(one, two, packet, region, evidence[1..], direct);
    }
  }

  lemma ImpactAlike(one: State, two: State, packet: PacketType, region: set<Id>, cites: seq<Id>)
    requires EvidenceAlike(one, two, packet, region) && Elements(cites) <= region
    ensures ImpactOf(one, cites) == ImpactOf(two, cites)
    ensures EvidenceOf(one.conflicts, cites) == EvidenceOf(two.conflicts, cites)
    ensures Elements(EvidenceOf(one.conflicts, cites)) <= region
  {
    hide EvidenceAlike, AgreeOn, EvidenceOf, CitedViews, SectionImpact;
    AlikeAgree(one, two, packet, region);
    ClosureFrame(one.conflicts, two.conflicts, region, cites);
    ViewsAlike(one, two, packet, region, EvidenceOf(one.conflicts, cites), Elements(cites));
  }

  lemma RelatedAlike(one: State, two: State, packet: PacketType, region: set<Id>, c: Id)
    requires EvidenceAlike(one, two, packet, region) && c in region
    ensures RelatedConflicts(one.conflicts, c) == RelatedConflicts(two.conflicts, c)
    ensures forall f :: f in RelatedConflicts(one.conflicts, c) ==> (Disclosable(one, f) <==> Disclosable(two, f))
  {
    hide EvidenceAlike, RelatedConflicts;
    AlikeAgree(one, two, packet, region);
    AgreeingIncident(one.conflicts, two.conflicts, region, c);
    RelatedFrame(one.conflicts, two.conflicts, c);
    forall f | f in RelatedConflicts(one.conflicts, c) ensures Disclosable(one, f) <==> Disclosable(two, f) {
      assert f in Incident(one.conflicts, c) && f in Incident(two.conflicts, c);
      DisclosableAlike(one, two, packet, region, f);
    }
  }

  lemma DisclosableAlike(one: State, two: State, packet: PacketType, region: set<Id>, f: Id)
    requires EvidenceAlike(one, two, packet, region)
    requires f in one.conflicts && Meets(one.conflicts[f], region)
    ensures Disclosable(one, f) <==> Disclosable(two, f)
  {
    assert ConflictViewAlike(one, two, packet, region, f);
    assert ClaimViewAlike(one, two, packet, one.conflicts[f].a) && ClaimViewAlike(one, two, packet, one.conflicts[f].b);
  }

  lemma {:induction false} KeepAlike(one: State, two: State, ids: seq<Id>)
    requires forall f :: f in ids ==> (Disclosable(one, f) <==> Disclosable(two, f))
    ensures KeepDisclosable(one, ids) == KeepDisclosable(two, ids)
  {
    hide Disclosable;
    if ids != [] {
      assert ids[|ids| - 1] in ids;
      KeepAlike(one, two, ids[..|ids| - 1]);
    }
  }

  lemma {:induction false} MetAlike(one: State, two: State, packet: PacketType, region: set<Id>, claims: seq<Id>)
    requires EvidenceAlike(one, two, packet, region) && Elements(claims) <= region
    ensures DisclosuresMet(one, claims) == DisclosuresMet(two, claims)
  {
    hide EvidenceAlike, RelatedConflicts, KeepDisclosable, Disclosable;
    if claims != [] {
      var c := claims[|claims| - 1];
      assert c in Elements(claims);
      assert Elements(claims[..|claims| - 1]) <= Elements(claims);
      MetAlike(one, two, packet, region, claims[..|claims| - 1]);
      WithheldAlike(one, two, packet, region, c);
      RelatedAlike(one, two, packet, region, c);
      KeepAlike(one, two, RelatedConflicts(one.conflicts, c));
    }
  }

  // Plans of the same treatment, and the same throughout where they are printed.
  predicate PlanMatches(packet: PacketType, p: Plan, q: Plan)
  {
    && p.id == q.id && p.disposition == q.disposition && p.reason == q.reason && p.disclosed == q.disclosed
    && p.snapshot.cites == q.snapshot.cites && (Sanitized(packet, p) || p == q)
  }

  lemma PlanAlike(one: State, two: State, packet: PacketType, region: set<Id>, s: Id)
    requires EvidenceAlike(one, two, packet, region) && SectionAlike(one, two, packet, region, s)
    ensures PlanMatches(packet, PlanOf(one, packet, s), PlanOf(two, packet, s))
  {
    hide EvidenceAlike, EvidenceOf, ImpactOf, DisclosuresMet, ApprovedNow, Dedup, ActiveRevision, Withheld;
    var cites := PlanOf(one, packet, s).snapshot.cites;
    ImpactAlike(one, two, packet, region, cites);
    forall c | c in cites ensures Withheld(one, c) <==> Withheld(two, c) {
      WithheldAlike(one, two, packet, region, c);
    }
    MetAlike(one, two, packet, region, EvidenceOf(one.conflicts, cites));
    MetAlike(one, two, packet, region, cites);
  }

  // ---- The same manifest ----

  ghost predicate PlanWithin(one: State, two: State, packet: PacketType, region: set<Id>, plan: Plan)
  {
    && CitesWithin(plan.snapshot, region)
    && forall f :: f in plan.disclosed ==> ConflictViewAlike(one, two, packet, region, f)
  }

  lemma MetWithin(one: State, two: State, packet: PacketType, region: set<Id>, claims: seq<Id>)
    requires EvidenceAlike(one, two, packet, region) && Elements(claims) <= region
    ensures forall f :: f in DisclosuresMet(one, claims) ==> ConflictViewAlike(one, two, packet, region, f)
  {
    hide DisclosuresMet, ConflictViewAlike, Disclosable;
    forall f | f in DisclosuresMet(one, claims) ensures ConflictViewAlike(one, two, packet, region, f) {
      MetExactly(one, claims, f);
      var c :| c in claims && MetAt(one, c, f);
      assert c in Elements(claims);
      assert Meets(one.conflicts[f], region);
    }
  }

  lemma PlanStaysWithin(one: State, two: State, packet: PacketType, region: set<Id>, s: Id)
    requires EvidenceAlike(one, two, packet, region) && SectionAlike(one, two, packet, region, s)
    ensures PlanWithin(one, two, packet, region, PlanOf(one, packet, s))
  {
    hide EvidenceAlike, EvidenceOf, ImpactOf, DisclosuresMet, ApprovedNow, ActiveRevision, Withheld, ConflictViewAlike;
    var cites := PlanOf(one, packet, s).snapshot.cites;
    ImpactAlike(one, two, packet, region, cites);
    MetWithin(one, two, packet, region, EvidenceOf(one.conflicts, cites));
    MetWithin(one, two, packet, region, cites);
  }

  lemma SectionsAlike(one: State, two: State, packet: PacketType, k: Id, region: set<Id>)
    requires Alike(one, two, packet, k, region)
    ensures SectionsInOrder(one, k) == SectionsInOrder(two, k)
    ensures forall s :: s in SectionsInOrder(one, k) ==> SectionAlike(one, two, packet, region, s)
  {
    hide EvidenceAlike, ApprovedNow, ActiveRevision, SortedBy;
    var ids := set s | s in one.sections && one.sections[s].caseId == k;
    var same := set s | s in two.sections && two.sections[s].caseId == k;
    forall s ensures s in ids <==> s in same {
      if s in ids { assert SectionAlike(one, two, packet, region, s); }
      if s in same { assert SectionAlike(one, two, packet, region, s); }
    }
    assert ids == same;
    forall s | s in ids ensures one.sections[s].position == two.sections[s].position {
      assert SectionAlike(one, two, packet, region, s);
    }
    var rank, sameRank := map s | s in ids :: one.sections[s].position, map s | s in same :: two.sections[s].position;
    assert rank == sameRank;
    assert SectionsInOrder(two, k) == SortedBy(same, sameRank);
    SortedByFacts(ids, map s | s in ids :: one.sections[s].position);
  }

  ghost predicate PlansWithin(one: State, two: State, packet: PacketType, region: set<Id>, plans: seq<Plan>)
  {
    forall i :: 0 <= i < |plans| ==> PlanWithin(one, two, packet, region, plans[i])
  }

  ghost predicate PlansMatch(packet: PacketType, a: seq<Plan>, b: seq<Plan>)
  {
    |a| == |b| && forall i :: 0 <= i < |a| ==> PlanMatches(packet, a[i], b[i])
  }

  lemma PlansAlike(one: State, two: State, packet: PacketType, k: Id, region: set<Id>)
    requires Alike(one, two, packet, k, region)
    ensures PlansMatch(packet, PlansIn(one, k, packet), PlansIn(two, k, packet))
    ensures PlansWithin(one, two, packet, region, PlansIn(one, k, packet))
  {
    hide EvidenceAlike, SectionAlike, PlanOf, PlanWithin, PlanMatches, SectionsInOrder;
    SectionsAlike(one, two, packet, k, region);
    SectionsListed(one, k);
    SectionsListed(two, k);
    var ids := SectionsInOrder(one, k);
    forall i | 0 <= i < |ids|
      ensures PlanMatches(packet, PlansIn(one, k, packet)[i], PlansIn(two, k, packet)[i])
      ensures PlanWithin(one, two, packet, region, PlansIn(one, k, packet)[i])
    {
      assert ids[i] in ids;
      PlanAlike(one, two, packet, region, ids[i]);
      PlanStaysWithin(one, two, packet, region, ids[i]);
    }
  }

  lemma ConflictThingsAlike(one: State, two: State, packet: PacketType, region: set<Id>, f: Id)
    requires EvidenceAlike(one, two, packet, region) && ConflictViewAlike(one, two, packet, region, f)
    ensures one.conflicts[f].a == two.conflicts[f].a && one.conflicts[f].b == two.conflicts[f].b
    ensures one.conflicts[f].a in region && one.conflicts[f].b in region
    ensures Withheld(one, one.conflicts[f].a) == Withheld(two, one.conflicts[f].a)
    ensures Withheld(one, one.conflicts[f].b) == Withheld(two, one.conflicts[f].b)
  {
    hide EvidenceAlike;
    WithheldAlike(one, two, packet, region, one.conflicts[f].a);
    WithheldAlike(one, two, packet, region, one.conflicts[f].b);
  }

  lemma {:induction false} DisclosureThingsAlike(one: State, two: State, packet: PacketType, region: set<Id>,
                                                 disclosed: seq<Id>)
    requires EvidenceAlike(one, two, packet, region)
    requires forall f :: f in disclosed ==> ConflictViewAlike(one, two, packet, region, f)
    ensures DisclosureThings(one, disclosed) == DisclosureThings(two, disclosed)
  {
    hide EvidenceAlike, Withheld;
    if disclosed != [] {
      var f := disclosed[|disclosed| - 1];
      assert f in disclosed;
      DisclosureThingsAlike(one, two, packet, region, disclosed[..|disclosed| - 1]);
      ConflictThingsAlike(one, two, packet, region, f);
    }
  }

  lemma {:induction false} ThingsAlike(one: State, two: State, packet: PacketType, region: set<Id>, plans: seq<Plan>)
    requires EvidenceAlike(one, two, packet, region) && PlansWithin(one, two, packet, region, plans)
    ensures AllThings(one, packet, plans) == AllThings(two, packet, plans)
  {
    hide EvidenceAlike, ConflictViewAlike, DisclosureThings;
    if plans != [] {
      var n := |plans| - 1;
      assert PlanWithin(one, two, packet, region, plans[n]);
      forall i | 0 <= i < n ensures PlanWithin(one, two, packet, region, plans[..n][i]) {
        assert PlanWithin(one, two, packet, region, plans[i]);
      }
      ThingsAlike(one, two, packet, region, plans[..n]);
      DisclosureThingsAlike(one, two, packet, region, plans[n].disclosed);
    }
  }

  lemma {:induction false} MatchingThings(st: State, packet: PacketType, a: seq<Plan>, b: seq<Plan>)
    requires PlansMatch(packet, a, b)
    ensures AllThings(st, packet, a) == AllThings(st, packet, b)
    ensures forall d :: CountOf(a, d) == CountOf(b, d)
  {
    hide DisclosureThings;
    if a != [] {
      var n := |a| - 1;
      assert PlanMatches(packet, a[n], b[n]);
      assert forall i :: 0 <= i < n ==> PlanMatches(packet, a[..n][i], b[..n][i]);
      MatchingThings(st, packet, a[..n], b[..n]);
    }
  }

  lemma {:induction false} MatchingEntries(st: State, packet: PacketType, refs: seq<Thing>, a: seq<Plan>, b: seq<Plan>)
    requires PlansMatch(packet, a, b) && PlansKnown(st, a) && PlansKnown(st, b)
    ensures EntriesOf(st, packet, refs, a) == EntriesOf(st, packet, refs, b)
  {
    hide DisclosuresOf, CountOf, PlanMatches, EntryOf;
    if a != [] {
      var n := |a| - 1;
      assert PlanMatches(packet, a[n], b[n]);
      assert forall i :: 0 <= i < n ==> PlanMatches(packet, a[..n][i], b[..n][i]);
      KnownPrefix(st, a, n);
      KnownPrefix(st, b, n);
      assert PlanKnown(st, a[n]) && PlanKnown(st, b[n]);
      MatchingEntries(st, packet, refs, a[..n], b[..n]);
      MatchingThings(st, packet, a[..n], b[..n]);
      MatchingEntry(st, packet, refs, a[n], b[n], CountOf(a[..n], ExcludedEntry));
    }
  }

  lemma MatchingEntry(st: State, packet: PacketType, refs: seq<Thing>, p: Plan, q: Plan, excluded: nat)
    requires PlanMatches(packet, p, q) && PlanKnown(st, p) && PlanKnown(st, q)
    ensures EntryOf(st, packet, refs, p, excluded) == EntryOf(st, packet, refs, q, excluded)
  {
  }

  // An entry that speaks only of the region.
  ghost predicate EntryWithin(one: State, two: State, packet: PacketType, region: set<Id>, entry: Entry)
  {
    && Elements(entry.privateCites) <= region
    && (entry.shown.Some? ==> CitesWithin(entry.shown.value, region))
    && forall i :: 0 <= i < |entry.disclosures| ==> DisclosureWithin(one, two, packet, region, entry.disclosures[i])
  }

  predicate DisclosureWithin(one: State, two: State, packet: PacketType, region: set<Id>, d: Disclosure)
  {
    && ConflictViewAlike(one, two, packet, region, d.conflict)
    && d.a.id == one.conflicts[d.conflict].a && d.b.id == one.conflicts[d.conflict].b
    && (packet == Production ==> d.a.redacted == Withheld(one, d.a.id) && d.b.redacted == Withheld(one, d.b.id))
  }

  lemma EntryAlike(one: State, two: State, packet: PacketType, region: set<Id>, refs: seq<Thing>, plan: Plan,
                   excluded: nat)
    requires EvidenceAlike(one, two, packet, region) && PlanWithin(one, two, packet, region, plan)
    ensures PlanKnown(one, plan) && PlanKnown(two, plan)
    ensures EntryOf(one, packet, refs, plan, excluded) == EntryOf(two, packet, refs, plan, excluded)
    ensures EntryWithin(one, two, packet, region, EntryOf(one, packet, refs, plan, excluded))
  {
    hide EvidenceAlike, RefOf, Withheld;
    forall i | 0 <= i < |plan.disclosed|
      ensures plan.disclosed[i] in one.conflicts && plan.disclosed[i] in two.conflicts
      ensures DisclosureOf(one, packet, refs, plan.disclosed[i]) == DisclosureOf(two, packet, refs, plan.disclosed[i])
      ensures DisclosureWithin(one, two, packet, region, DisclosureOf(one, packet, refs, plan.disclosed[i]))
    {
      assert plan.disclosed[i] in plan.disclosed;
      ConflictThingsAlike(one, two, packet, region, plan.disclosed[i]);
    }
    assert DisclosuresOf(one, packet, refs, plan.disclosed) == DisclosuresOf(two, packet, refs, plan.disclosed);
  }

  ghost predicate EntriesWithin(one: State, two: State, packet: PacketType, region: set<Id>, entries: seq<Entry>)
  {
    forall i :: 0 <= i < |entries| ==> EntryWithin(one, two, packet, region, entries[i])
  }

  lemma {:induction false} EntriesAlike(one: State, two: State, packet: PacketType, region: set<Id>,
                                        refs: seq<Thing>, plans: seq<Plan>)
    requires EvidenceAlike(one, two, packet, region) && PlansWithin(one, two, packet, region, plans)
    requires PlansKnown(one, plans) && PlansKnown(two, plans)
    ensures EntriesOf(one, packet, refs, plans) == EntriesOf(two, packet, refs, plans)
    ensures EntriesWithin(one, two, packet, region, EntriesOf(one, packet, refs, plans))
  {
    hide EvidenceAlike, EntryOf, EntryWithin, PlanWithin;
    if plans != [] {
      var n := |plans| - 1;
      assert PlanWithin(one, two, packet, region, plans[n]);
      KnownPrefix(one, plans, n);
      KnownPrefix(two, plans, n);
      EntriesAlike(one, two, packet, region, refs, plans[..n]);
      EntryAlike(one, two, packet, region, refs, plans[n], CountOf(plans[..n], ExcludedEntry));
    }
  }

  // ---- The same appendices ----

  lemma {:induction false} ShownEndsWithin(one: State, two: State, packet: PacketType, region: set<Id>,
                                           ds: seq<Disclosure>)
    requires forall i :: 0 <= i < |ds| ==> DisclosureWithin(one, two, packet, region, ds[i])
    ensures ShownEnds(ds) <= region
  {
    if ds != [] {
      assert DisclosureWithin(one, two, packet, region, ds[|ds| - 1]);
      ShownEndsWithin(one, two, packet, region, ds[..|ds| - 1]);
    }
  }

  lemma CitedByAlike(one: State, two: State, packet: PacketType, region: set<Id>, entry: Entry)
    requires EvidenceAlike(one, two, packet, region) && EntryWithin(one, two, packet, region, entry)
    ensures CitedBy(one, entry) == CitedBy(two, entry) && CitedBy(one, entry) <= region
  {
    hide EvidenceAlike, DisclosureWithin, ShownEnds;
    ShownEndsWithin(one, two, packet, region, entry.disclosures);
    if entry.shown.Some? {
      var cites := entry.shown.value.cites;
      forall c | c in cites ensures c in region && c in one.claims && c in two.claims {
        assert c in Elements(cites);
        WithheldAlike(one, two, packet, region, c);
      }
      assert KnownClaims(one, cites) == KnownClaims(two, cites);
    }
  }

  lemma {:induction false} CitedAlike(one: State, two: State, packet: PacketType, region: set<Id>, entries: seq<Entry>)
    requires EvidenceAlike(one, two, packet, region) && EntriesWithin(one, two, packet, region, entries)
    ensures CitedByAll(one, entries) == CitedByAll(two, entries) && CitedByAll(one, entries) <= region
  {
    hide EvidenceAlike, CitedBy, EntryWithin;
    if entries != [] {
      var n := |entries| - 1;
      assert EntryWithin(one, two, packet, region, entries[n]);
      CitedAlike(one, two, packet, region, entries[..n]);
      CitedByAlike(one, two, packet, region, entries[n]);
    }
  }

  ghost predicate ShownWithin(region: set<Id>, shown: seq<ClaimView>)
  {
    forall i :: 0 <= i < |shown| ==> shown[i].id in region
  }

  lemma ViewsSame(one: State, two: State, packet: PacketType, region: set<Id>, refs: seq<Thing>, ids: seq<Id>)
    requires EvidenceAlike(one, two, packet, region) && forall c :: c in ids ==> c in region
    ensures Views(one, packet, refs, ids) == Views(two, packet, refs, ids)
    ensures ShownWithin(region, Views(one, packet, refs, ids))
  {
    hide EvidenceAlike, Withheld;
    forall i | 0 <= i < |ids| ensures ids[i] in region && ViewOf(one, packet, refs, ids[i]) == ViewOf(two, packet, refs, ids[i]) {
      assert ids[i] in ids;
      WithheldAlike(one, two, packet, region, ids[i]);
    }
  }

  lemma {:induction false} SourcesAlike(one: State, two: State, packet: PacketType, region: set<Id>,
                                        shown: seq<ClaimView>)
    requires EvidenceAlike(one, two, packet, region) && ShownWithin(region, shown)
    ensures SourcesOf(one, shown) == SourcesOf(two, shown)
  {
    hide ConflictViewAlike, Meets;
    if shown != [] {
      var n := |shown| - 1;
      SourcesAlike(one, two, packet, region, shown[..n]);
      assert ClaimViewAlike(one, two, packet, shown[n].id);
    }
  }

  // ---- The same log ----

  lemma LogLineAlike(one: State, two: State, packet: PacketType, region: set<Id>, c: Id, ref: nat)
    requires EvidenceAlike(one, two, packet, region) && c in region
    ensures LogLineFor(one, c, ref) == LogLineFor(two, c, ref)
  {
    assert ClaimViewAlike(one, two, packet, c);
  }

  lemma {:induction false} WithheldLinesAlike(one: State, two: State, packet: PacketType, region: set<Id>,
                                              cites: seq<Id>, ref: nat)
    requires EvidenceAlike(one, two, packet, region) && Elements(cites) <= region
    ensures WithheldLines(one, cites, ref) == WithheldLines(two, cites, ref)
  {
    hide EvidenceAlike, Withheld, LogLineFor;
    if cites != [] {
      var n := |cites| - 1;
      assert cites[n] in Elements(cites) && Elements(cites[..n]) <= Elements(cites);
      WithheldLinesAlike(one, two, packet, region, cites[..n], ref);
      WithheldAlike(one, two, packet, region, cites[n]);
      LogLineAlike(one, two, packet, region, cites[n], ref);
    }
  }

  lemma {:induction false} DisclosureLinesAlike(one: State, two: State, packet: PacketType, region: set<Id>,
                                                ds: seq<Disclosure>)
    requires EvidenceAlike(one, two, packet, region)
    requires forall i :: 0 <= i < |ds| ==> DisclosureWithin(one, two, packet, region, ds[i])
    ensures DisclosureLines(one, ds) == DisclosureLines(two, ds)
  {
    hide EvidenceAlike, LogLineFor;
    if ds != [] {
      var d := ds[|ds| - 1];
      assert DisclosureWithin(one, two, packet, region, d);
      DisclosureLinesAlike(one, two, packet, region, ds[..|ds| - 1]);
      if d.a.ref.Some? { LogLineAlike(one, two, packet, region, d.a.id, d.a.ref.value); }
      if d.b.ref.Some? { LogLineAlike(one, two, packet, region, d.b.id, d.b.ref.value); }
    }
  }

  lemma {:induction false} LinesAlike(one: State, two: State, packet: PacketType, region: set<Id>, entries: seq<Entry>)
    requires EvidenceAlike(one, two, packet, region) && EntriesWithin(one, two, packet, region, entries)
    ensures AllLines(one, entries) == AllLines(two, entries)
  {
    hide EvidenceAlike, WithheldLines, DisclosureLines, DisclosureWithin;
    if entries != [] {
      var n := |entries| - 1;
      var entry := entries[n];
      assert EntryWithin(one, two, packet, region, entry);
      assert forall i :: 0 <= i < n ==> entries[..n][i] == entries[i];
      LinesAlike(one, two, packet, region, entries[..n]);
      DisclosureLinesAlike(one, two, packet, region, entry.disclosures);
      if entry.artifact.WithheldRef? {
        WithheldLinesAlike(one, two, packet, region, entry.privateCites, entry.artifact.number);
      }
    }
  }

  // ---- The same packet ----

  lemma PlansKnownBoth(one: State, two: State, packet: PacketType, region: set<Id>, plans: seq<Plan>)
    requires PlansWithin(one, two, packet, region, plans)
    ensures PlansKnown(one, plans) && PlansKnown(two, plans)
  {
    hide SameButSummary;
    forall i | 0 <= i < |plans| ensures PlanKnown(one, plans[i]) && PlanKnown(two, plans[i]) {
      assert PlanWithin(one, two, packet, region, plans[i]);
    }
  }

  lemma PacketAlike(one: State, two: State, packet: PacketType, k: Id, region: set<Id>)
    requires Alike(one, two, packet, k, region)
    ensures PacketOf(one, k, packet) == PacketOf(two, k, packet)
    ensures EntriesWithin(one, two, packet, region, PacketOf(one, k, packet).entries)
    ensures ShownWithin(region, PacketOf(one, k, packet).cited)
  {
    hide EvidenceAlike, SectionAlike, PlansIn, AllThings, EntriesOf, EntriesWithin, PlansWithin, PlansMatch, CitedByAll, Views,
         SourcesOf, AllLines, LogOf, Dedup, CountOf, ShownWithin;
    var plans, refs := PlansIn(one, k, packet), RefsIn(one, k, packet);
    PlansInKnown(one, k, packet);
    PlansInKnown(two, k, packet);
    PlansAlike(one, two, packet, k, region);
    MatchingThings(two, packet, plans, PlansIn(two, k, packet));
    ThingsAlike(one, two, packet, region, plans);
    PlansKnownBoth(one, two, packet, region, plans);
    EntriesAlike(one, two, packet, region, refs, plans);
    MatchingEntries(two, packet, refs, plans, PlansIn(two, k, packet));
    var entries := EntriesOf(one, packet, refs, plans);
    CitedAlike(one, two, packet, region, entries);
    SortedFacts(CitedByAll(one, entries));
    ViewsSame(one, two, packet, region, refs, Sorted(CitedByAll(one, entries)));
    SourcesAlike(one, two, packet, region, Views(one, packet, refs, Sorted(CitedByAll(one, entries))));
    LinesAlike(one, two, packet, region, entries);
  }

  // ---- The same body ----

  // What is read of a claim whose words are shown.
  predicate MayShow(one: State, packet: PacketType, c: Id) { packet == Internal || !Withheld(one, c) }

  lemma SourceSame(one: State, two: State, packet: PacketType, region: set<Id>, c: Id)
    requires EvidenceAlike(one, two, packet, region) && c in region && MayShow(one, packet, c)
    ensures c in one.claims && c in two.claims
    ensures one.claims[c].content == two.claims[c].content && one.claims[c].sourceId == two.claims[c].sourceId
    ensures var s := one.claims[c].sourceId; RenderSource(one, s) == RenderSource(two, s)
    ensures forall sources :: LineOf(one, sources, one.claims[c].sourceId) == LineOf(two, sources, one.claims[c].sourceId)
  {
    assert ClaimViewAlike(one, two, packet, c);
  }

  lemma CitationSame(one: State, two: State, packet: PacketType, region: set<Id>, sources: seq<Id>, v: ClaimView)
    requires EvidenceAlike(one, two, packet, region) && v.id in region
    requires v.redacted || MayShow(one, packet, v.id)
    ensures RenderCitation(one, sources, v) == RenderCitation(two, sources, v)
  {
    hide EvidenceAlike, LineOf;
    if !v.redacted { SourceSame(one, two, packet, region, v.id); }
  }

  lemma DisclosureSame(one: State, two: State, packet: PacketType, region: set<Id>, sources: seq<Id>, d: Disclosure)
    requires EvidenceAlike(one, two, packet, region) && DisclosureWithin(one, two, packet, region, d)
    ensures RenderDisclosure(one, sources, d) == RenderDisclosure(two, sources, d)
  {
    hide EvidenceAlike, RenderCitation, Withheld;
    CitationSame(one, two, packet, region, sources, d.a);
    CitationSame(one, two, packet, region, sources, d.b);
  }

  lemma SectionSame(one: State, two: State, region: set<Id>, p: Packet, entry: Entry)
    requires EvidenceAlike(one, two, p.packet, region) && EntryWithin(one, two, p.packet, region, entry)
    ensures RenderSection(one, p, entry) == RenderSection(two, p, entry)
  {
    hide EvidenceAlike, RenderDisclosure, DisclosureWithin;
    forall i | 0 <= i < |entry.disclosures|
      ensures RenderDisclosure(one, p.citedSources, entry.disclosures[i]) == RenderDisclosure(two, p.citedSources, entry.disclosures[i])
    {
      DisclosureSame(one, two, p.packet, region, p.citedSources, entry.disclosures[i]);
    }
    assert RenderDisclosures(one, p.citedSources, entry.disclosures) == RenderDisclosures(two, p.citedSources, entry.disclosures);
  }

  lemma {:induction false} SectionsSame(one: State, two: State, region: set<Id>, p: Packet, entries: seq<Entry>)
    requires EvidenceAlike(one, two, p.packet, region) && EntriesWithin(one, two, p.packet, region, entries)
    ensures RenderSections(one, p, entries) == RenderSections(two, p, entries)
  {
    hide EvidenceAlike, RenderSection, EntryWithin;
    if entries != [] {
      assert EntryWithin(one, two, p.packet, region, entries[|entries| - 1]);
      SectionsSame(one, two, region, p, entries[..|entries| - 1]);
      SectionSame(one, two, region, p, entries[|entries| - 1]);
    }
  }

  ghost predicate CitedMayShow(one: State, p: Packet)
  {
    forall i :: 0 <= i < |p.cited| ==> MayShow(one, p.packet, p.cited[i].id)
  }

  lemma ClaimSame(one: State, two: State, region: set<Id>, p: Packet, v: ClaimView)
    requires EvidenceAlike(one, two, p.packet, region) && v.id in region && MayShow(one, p.packet, v.id)
    ensures RenderClaim(one, p, v) == RenderClaim(two, p, v)
  {
    hide RenderCitation, ConflictViewAlike;
    CitationSame(one, two, p.packet, region, p.citedSources, v);
    assert ClaimViewAlike(one, two, p.packet, v.id);
  }

  lemma ClaimsSame(one: State, two: State, region: set<Id>, p: Packet)
    requires EvidenceAlike(one, two, p.packet, region) && ShownWithin(region, p.cited) && CitedMayShow(one, p)
    ensures RenderClaims(one, p) == RenderClaims(two, p)
  {
    hide EvidenceAlike, RenderClaim, MayShow;
    forall i | 0 <= i < |p.cited| ensures RenderClaim(one, p, p.cited[i]) == RenderClaim(two, p, p.cited[i]) {
      ClaimSame(one, two, region, p, p.cited[i]);
    }
  }

  lemma SourcesSame(one: State, two: State, region: set<Id>, p: Packet)
    requires EvidenceAlike(one, two, p.packet, region) && ShownWithin(region, p.cited) && CitedMayShow(one, p)
    requires p.citedSources == Sorted(SourcesOf(one, p.cited))
    ensures RenderSources(one, p) == RenderSources(two, p)
  {
    hide EvidenceAlike, RenderSource, MayShow, SourcesOf, LineOf;
    SortedFacts(SourcesOf(one, p.cited));
    forall i | 0 <= i < |p.citedSources| ensures RenderSource(one, p.citedSources[i]) == RenderSource(two, p.citedSources[i]) {
      var s := p.citedSources[i];
      assert s in p.citedSources;
      SourcesOfShown(one, p.cited, s);
      var j :| 0 <= j < |p.cited| && !p.cited[j].redacted && FromSource(one, p.cited[j].id, s);
      SourceSame(one, two, p.packet, region, p.cited[j].id);
    }
  }

  // Logged documents belong to claims of the region.
  ghost predicate LinesWithin(one: State, region: set<Id>, lines: seq<LogLine>)
  {
    forall i :: 0 <= i < |lines| ==> SourceWithin(one, region, lines[i].0)
  }

  ghost predicate SourceWithin(one: State, region: set<Id>, source: Id)
  {
    exists c :: c in region && FromSource(one, c, source)
  }

  lemma LogLineWithin(one: State, region: set<Id>, c: Id, ref: nat)
    requires c in region
    ensures LinesWithin(one, region, LogLineFor(one, c, ref))
  {
    if c in one.claims && one.claims[c].sourceId in one.sources {
      assert FromSource(one, c, LogLineFor(one, c, ref)[0].0);
    }
  }

  lemma {:induction false} WithheldLinesWithin(one: State, region: set<Id>, cites: seq<Id>, ref: nat)
    requires Elements(cites) <= region
    ensures LinesWithin(one, region, WithheldLines(one, cites, ref))
  {
    hide LogLineFor, FromSource, Withheld;
    if cites != [] {
      var n := |cites| - 1;
      assert cites[n] in Elements(cites) && Elements(cites[..n]) <= Elements(cites);
      WithheldLinesWithin(one, region, cites[..n], ref);
      LogLineWithin(one, region, cites[n], ref);
    }
  }

  lemma {:induction false} DisclosureLinesWithin(one: State, two: State, packet: PacketType, region: set<Id>,
                                                 ds: seq<Disclosure>)
    requires forall i :: 0 <= i < |ds| ==> DisclosureWithin(one, two, packet, region, ds[i])
    ensures LinesWithin(one, region, DisclosureLines(one, ds))
  {
    hide LogLineFor, FromSource;
    if ds != [] {
      var d := ds[|ds| - 1];
      assert DisclosureWithin(one, two, packet, region, d);
      DisclosureLinesWithin(one, two, packet, region, ds[..|ds| - 1]);
      if d.a.ref.Some? { LogLineWithin(one, region, d.a.id, d.a.ref.value); }
      if d.b.ref.Some? { LogLineWithin(one, region, d.b.id, d.b.ref.value); }
    }
  }

  lemma LinesWithinBoth(one: State, region: set<Id>, a: seq<LogLine>, b: seq<LogLine>)
    requires LinesWithin(one, region, a) && LinesWithin(one, region, b)
    ensures LinesWithin(one, region, a + b)
  {
    hide SourceWithin;
    forall i | 0 <= i < |a + b| ensures SourceWithin(one, region, (a + b)[i].0) {
      assert i < |a| ==> (a + b)[i] == a[i];
      assert i >= |a| ==> (a + b)[i] == b[i - |a|];
    }
  }

  lemma {:induction false} AllLinesWithin(one: State, two: State, packet: PacketType, region: set<Id>,
                                          entries: seq<Entry>)
    requires EntriesWithin(one, two, packet, region, entries)
    ensures LinesWithin(one, region, AllLines(one, entries))
  {
    hide WithheldLines, DisclosureLines, DisclosureWithin, FromSource;
    if entries != [] {
      var n := |entries| - 1;
      var entry := entries[n];
      assert EntryWithin(one, two, packet, region, entry);
      assert forall i :: 0 <= i < n ==> entries[..n][i] == entries[i];
      AllLinesWithin(one, two, packet, region, entries[..n]);
      DisclosureLinesWithin(one, two, packet, region, entry.disclosures);
      var lines: seq<LogLine> := [];
      if entry.disposition == WithheldEntry && entry.artifact.WithheldRef? {
        WithheldLinesWithin(one, region, entry.privateCites, entry.artifact.number);
        lines := WithheldLines(one, entry.privateCites, entry.artifact.number);
      }
      LinesWithinBoth(one, region, lines, DisclosureLines(one, entry.disclosures));
      LinesWithinBoth(one, region, AllLines(one, entries[..n]), EntryLines(one, entry));
    }
  }

  lemma LogSame(one: State, two: State, region: set<Id>, p: Packet)
    requires EvidenceAlike(one, two, p.packet, region) && EntriesWithin(one, two, p.packet, region, p.entries)
    requires p.log == [] || p.log == LogOf(AllLines(one, p.entries))
    ensures RenderLog(one, p) == RenderLog(two, p)
  {
    hide EntriesWithin, AllLines, RefsFor, ConflictViewAlike;
    var lines := AllLines(one, p.entries);
    AllLinesWithin(one, two, p.packet, region, p.entries);
    forall i | 0 <= i < |p.log| ensures RenderLogEntry(one, p.log[i]) == RenderLogEntry(two, p.log[i]) {
      var source := p.log[i].source;
      assert source in Dedup(LineSources(lines));
      var j := IndexOf(LineSources(lines), source);
      assert lines[j].0 == source && SourceWithin(one, region, lines[j].0);
      var c :| c in region && FromSource(one, c, source);
      assert ClaimViewAlike(one, two, p.packet, c);
    }
  }

  lemma BodyAlike(one: State, two: State, packet: PacketType, k: Id, region: set<Id>)
    requires ClaimsRooted(one) && Alike(one, two, packet, k, region)
    ensures BodyOf(one, PacketOf(one, k, packet)) == BodyOf(two, PacketOf(two, k, packet))
  {
    hide EvidenceAlike, SectionAlike, EntriesWithin, ShownWithin, ClaimsRooted, PlansIn, EntriesOf, AllLines,
         SourcesOf, LogOf,
         Logged, RenderSections, RenderClaims, RenderSources, RenderLog, Views, AllThings, Withheld, CountOf;
    PacketAlike(one, two, packet, k, region);
    var p := PacketOf(one, k, packet);
    if packet == Production { NothingWithheldIsCited(one, k); }
    SectionsSame(one, two, region, p, p.entries);
    ClaimsSame(one, two, region, p);
    SourcesSame(one, two, region, p);
    LogSame(one, two, region, p);
  }

  // ---- Non-interference ----

  // Two stores that differ, within the matter, only in what is withheld: the
  // words of withheld claims, the details of withheld sources, the summaries of
  // conflicts with a withheld side; in every claim's assessment; and in what the
  // sections say that production does not print.
  ghost predicate DifferOnlyInWithheld(one: State, two: State, k: Id)
  {
    && ClaimsOfCase(one, k) == ClaimsOfCase(two, k)
    && (forall c :: c in one.claims && one.claims[c].caseId == k ==>
          && c in two.claims && ClaimAlike(Production, one.claims[c], two.claims[c])
          && one.claims[c].sourceId in one.sources && one.claims[c].sourceId in two.sources
          && SourceAlike(Production, one.sources[one.claims[c].sourceId], two.sources[one.claims[c].sourceId]))
    && (forall f :: f in one.conflicts && one.conflicts[f].caseId == k ==> ConflictOutsideAlike(one, two, f))
    && (forall f :: f in two.conflicts && two.conflicts[f].caseId == k ==> ConflictOutsideAlike(one, two, f))
    && (forall s :: s in one.sections && one.sections[s].caseId == k ==> SectionSeenAlike(one, two, Production, s))
    && (forall s :: s in two.sections && two.sections[s].caseId == k ==> SectionSeenAlike(one, two, Production, s))
  }

  predicate ConflictOutsideAlike(one: State, two: State, f: Id)
  {
    && f in one.conflicts && f in two.conflicts && SameButSummary(one.conflicts[f], two.conflicts[f])
    && (!Withheld(one, one.conflicts[f].a) && !Withheld(one, one.conflicts[f].b) ==>
          one.conflicts[f].summary == two.conflicts[f].summary)
  }

  lemma WithheldDifferencesAreAlike(one: State, two: State, k: Id)
    requires Valid(one) && Valid(two) && DifferOnlyInWithheld(one, two, k)
    ensures EvidenceAlike(one, two, Production, ClaimsOfCase(one, k))
  {
    hide ApprovalsHonest, CachesAgree, LinesKept, LogsLinked, SectionsRooted, ApprovedNow, ActiveRevision, Withheld,
         SameButSummary;
    var region := ClaimsOfCase(one, k);
    forall c | c in region ensures ClaimViewAlike(one, two, Production, c) {
      assert c in ClaimsOfCase(two, k);
    }
    forall f | f in one.conflicts && Meets(one.conflicts[f], region) ensures ConflictViewAlike(one, two, Production, region, f) {
      assert ConflictRooted(one.claims, one.conflicts[f]);
      assert ConflictOutsideAlike(one, two, f);
    }
    forall f | f in two.conflicts && Meets(two.conflicts[f], region) ensures ConflictViewAlike(one, two, Production, region, f) {
      assert ConflictRooted(two.claims, two.conflicts[f]);
      assert two.conflicts[f].caseId == k by { assert region == ClaimsOfCase(two, k); }
      assert ConflictOutsideAlike(one, two, f);
      assert f in one.conflicts && SameButSummary(one.conflicts[f], two.conflicts[f]);
      SummaryKeepsEnds(one.conflicts[f], two.conflicts[f]);
      assert ConflictRooted(one.claims, one.conflicts[f]);
    }
  }

  lemma SummaryKeepsEnds(f: Conflict, g: Conflict)
    requires SameButSummary(f, g)
    ensures f.a == g.a && f.b == g.b && f.caseId == g.caseId
  {
  }

  lemma CitesOfCase(st: State, k: Id, s: Id)
    requires Valid(st) && s in st.sections && st.sections[s].caseId == k
    ensures CitesWithin(st.sections[s].snapshot, ClaimsOfCase(st, k))
    ensures ApprovedNow(st, s) ==> ActiveRevision(st, s).value.content.snapshot == st.sections[s].snapshot
  {
    hide EvidenceDigest, LinesKept, CachesAgree, LogsLinked;
    assert CitesKnown(st.claims, st.sections[s]);
    assert Honest(st, st.sections[s]);
  }

  // A production packet and its body reveal nothing of what is withheld: given
  // the same approval verdicts, stores that differ only there yield the same
  // packet and the same body, to the last citation.
  lemma RedactionIsNonInterference(one: State, two: State, k: Id)
    requires Valid(one) && Valid(two) && DifferOnlyInWithheld(one, two, k)
    ensures PacketOf(one, k, Production) == PacketOf(two, k, Production)
    ensures BodyOf(one, PacketOf(one, k, Production)) == BodyOf(two, PacketOf(two, k, Production))
  {
    hide EvidenceAlike, Sound, ApprovalsHonest, PacketOf, BodyOf, ApprovedNow, ActiveRevision, CitesWithin,
         RevisionAlike;
    var region := ClaimsOfCase(one, k);
    WithheldDifferencesAreAlike(one, two, k);
    forall s | s in one.sections && one.sections[s].caseId == k ensures SectionAlike(one, two, Production, region, s) {
      CitesOfCase(one, k, s);
    }
    forall s | s in two.sections && two.sections[s].caseId == k ensures SectionAlike(one, two, Production, region, s) {
      assert s in one.sections && one.sections[s].caseId == k;
    }
    PacketAlike(one, two, Production, k, region);
    assert ClaimsRooted(one) by { SoundIsRooted(one); }
    BodyAlike(one, two, Production, k, region);
  }

  lemma SoundIsRooted(st: State)
    requires Valid(st)
    ensures ClaimsRooted(st)
  {
  }
}
