// The builder as it runs: counters, a memo of redacted claims and growing
// lists. It assembles exactly the packet that `Packets` prescribes.

module PacketBuilder {
  import opened Basics
  import opened Domain
  import opened Evidence
  import opened Approval
  import opened Packets

  // The closure state of the builder: two counters and the memo of claims.
  class OpaqueRefs {
    var withheld: nat
    var excluded: nat
    var memo: map<Id, nat>
    ghost var stream: seq<Thing>   // everything withheld so far, with repetitions

    ghost function Issued(): seq<Thing>
      reads this
    {
      Dedup(stream)
    }

    ghost predicate Valid()
      reads this
    {
      && withheld == |Issued()|
      && (forall c :: c in memo ==> WithheldClaim(c) in Issued() && memo[c] == IndexOf(Issued(), WithheldClaim(c)) + 1)
      && (forall c :: WithheldClaim(c) in Issued() ==> c in memo)
    }

    constructor ()
      ensures Valid() && stream == [] && excluded == 0
    {
      withheld, excluded, memo, stream := 0, 0, map[], [];
    }

    // A number is taken for a thing not seen before.
    lemma Extended(thing: Thing)
      requires thing !in Issued()
      ensures Dedup(stream + [thing]) == Issued() + [thing]
      ensures IndexOf(Issued() + [thing], thing) == |Issued()|
      ensures forall t :: t in Issued() ==> t in Issued() + [thing] && IndexOf(Issued() + [thing], t) == IndexOf(Issued(), t)
    {
      DedupSnoc(stream, thing);
      var longer := Issued() + [thing];
      assert Distinct(longer) by { assert longer == Dedup(stream + [thing]); }
      assert longer[|Issued()|] == thing;
      forall t | t in Issued() ensures t in longer && IndexOf(longer, t) == IndexOf(Issued(), t) {
        IndexOfPrefix(Issued(), longer, t);
      }
    }

    method SectionRef(id: Id) returns (number: nat)
      requires Valid() && WithheldSection(id) !in Issued()
      modifies this
      ensures Valid() && stream == old(stream) + [WithheldSection(id)] && excluded == old(excluded)
      ensures RefOf(Issued(), WithheldSection(id)) == Some(number)
    {
      Extended(WithheldSection(id));
      withheld := withheld + 1;
      number := withheld;
      stream := stream + [WithheldSection(id)];
    }

    method ExcludedNumber() returns (number: nat)
      requires Valid()
      modifies this`excluded
      ensures Valid() && excluded == old(excluded) + 1 == number
    {
      excluded := excluded + 1;
      number := excluded;
    }

    // One opaque reference per withheld claim, reused wherever it recurs.
    method PacketClaim(st: State, packet: PacketType, claim: Id) returns (view: ClaimView)
      requires Valid()
      modifies this
      ensures Valid() && excluded == old(excluded)
      ensures stream == old(stream) + if packet == Production then ClaimThing(st, claim) else []
      ensures view == ViewOf(st, packet, Issued(), claim)
    {
      if packet == Production && Withheld(st, claim) {
        if claim in memo {
          assert Dedup(stream + [WithheldClaim(claim)]) == Dedup(stream) by { DedupSnoc(stream, WithheldClaim(claim)); }
          view := ClaimView(claim, true, Some(memo[claim]));
        } else {
          Extended(WithheldClaim(claim));
          withheld := withheld + 1;
          memo := memo[claim := withheld];
          view := ClaimView(claim, true, Some(withheld));
        }
        stream := stream + [WithheldClaim(claim)];
      } else {
        view := ClaimView(claim, false, None);
        assert stream + [] == stream;
      }
    }
  }

  // ---- Numbers do not change as the packet grows ----

  lemma DedupOfPrefix(part: seq<Thing>, total: seq<Thing>)
    requires part <= total
    ensures Dedup(part) <= Dedup(total)
  {
    assert total == part + total[|part|..];
    DedupPrefix(part, total[|part|..]);
  }

  lemma ViewStable(st: State, packet: PacketType, part: seq<Thing>, total: seq<Thing>, claim: Id)
    requires part <= total
    requires packet == Production && Withheld(st, claim) ==> WithheldClaim(claim) in part
    ensures ViewOf(st, packet, Dedup(part), claim) == ViewOf(st, packet, Dedup(total), claim)
  {
    DedupOfPrefix(part, total);
    if packet == Production && Withheld(st, claim) {
      IndexOfPrefix(Dedup(part), Dedup(total), WithheldClaim(claim));
    }
  }

  lemma {:induction false} DisclosureThingsPrefix(st: State, disclosed: seq<Id>, n: nat)
    requires n <= |disclosed|
    ensures DisclosureThings(st, disclosed[..n]) <= DisclosureThings(st, disclosed)
    decreases |disclosed|
  {
    if n < |disclosed| {
      var front := disclosed[..|disclosed| - 1];
      assert front[..n] == disclosed[..n];
      DisclosureThingsPrefix(st, front, n);
    } else {
      assert disclosed[..n] == disclosed;
    }
  }

  lemma {:induction false} AllThingsPrefix(st: State, packet: PacketType, plans: seq<Plan>, n: nat)
    requires n <= |plans|
    ensures AllThings(st, packet, plans[..n]) <= AllThings(st, packet, plans)
    decreases |plans|
  {
    if n < |plans| {
      var front := plans[..|plans| - 1];
      assert front[..n] == plans[..n];
      AllThingsPrefix(st, packet, front, n);
    } else {
      assert plans[..n] == plans;
    }
  }

  // ---- Disclosures of one section ----

  lemma MetSnoc(st: State, claims: seq<Id>, n: nat)
    requires n < |claims|
    ensures DisclosuresMet(st, claims[..n + 1]) == DisclosuresMet(st, claims[..n]) +
              if claims[n] in st.claims && st.claims[claims[n]].status == Preserved
              then KeepDisclosable(st, RelatedConflicts(st.conflicts, claims[n])) else []
  {
    assert claims[..n + 1][..n] == claims[..n];
  }

  lemma KeepSnoc(st: State, met: seq<Id>, related: seq<Id>, n: nat)
    requires n < |related|
    ensures met + KeepDisclosable(st, related[..n + 1]) == (met + KeepDisclosable(st, related[..n])) +
              if Disclosable(st, related[n]) then [related[n]] else []
  {
    assert related[..n + 1][..n] == related[..n];
  }

  // `seen` keeps one conflict from being disclosed twice in a section.
  method CollectDisclosed(st: State, claims: seq<Id>) returns (disclosed: seq<Id>)
    ensures disclosed == Dedup(DisclosuresMet(st, claims))
  {
    hide DisclosuresMet, Dedup, RelatedConflicts;
    disclosed := [];
    assert claims[..0] == [];
    NothingMet(st);
    for n := 0 to |claims|
      invariant disclosed == Dedup(DisclosuresMet(st, claims[..n]))
    {
      MetSnoc(st, claims, n);
      if claims[n] in st.claims && st.claims[claims[n]].status == Preserved {
        var related := RelatedConflicts(st.conflicts, claims[n]);
        disclosed := CollectFrom(st, related, DisclosuresMet(st, claims[..n]), disclosed);
      } else {
        Nothing(DisclosuresMet(st, claims[..n]));
      }
    }
    assert claims[..|claims|] == claims;
  }

  lemma NothingMet(st: State)
    ensures Dedup(DisclosuresMet(st, [])) == []
  {
  }

  lemma Nothing<T>(xs: seq<T>)
    ensures xs + [] == xs
  {
  }

  lemma NothingKept(st: State, met: seq<Id>, related: seq<Id>)
    ensures met + KeepDisclosable(st, related[..0]) == met
  {
  }

  method CollectFrom(st: State, related: seq<Id>, ghost met: seq<Id>, before: seq<Id>) returns (disclosed: seq<Id>)
    requires before == Dedup(met)
    ensures disclosed == Dedup(met + KeepDisclosable(st, related))
  {
    hide Dedup, Disclosable, KeepDisclosable;
    disclosed := before;
    assert met + KeepDisclosable(st, related[..0]) == met by { NothingKept(st, met, related); }
    for n := 0 to |related|
      invariant disclosed == Dedup(met + KeepDisclosable(st, related[..n]))
    {
      KeepSnoc(st, met, related, n);
      if Disclosable(st, related[n]) {
        DedupSnoc(met + KeepDisclosable(st, related[..n]), related[n]);
        if related[n] !in disclosed {
          disclosed := disclosed + [related[n]];
        }
      } else {
        Nothing(met + KeepDisclosable(st, related[..n]));
      }
    }
    assert related[..|related|] == related;
  }

  // What the stream of withheld things becomes over a section's disclosures.
  ghost function Grown(start: seq<Thing>, st: State, packet: PacketType, disclosed: seq<Id>): seq<Thing>
  {
    start + if packet == Production then DisclosureThings(st, disclosed) else []
  }

  lemma GrownOnce(start: seq<Thing>, st: State, packet: PacketType, disclosed: seq<Id>, n: nat)
    requires n < |disclosed| && disclosed[n] in st.conflicts
    ensures var f := st.conflicts[disclosed[n]];
            Grown(start, st, packet, disclosed[..n + 1]) == Grown(start, st, packet, disclosed[..n])
              + (if packet == Production then ClaimThing(st, f.a) else [])
              + (if packet == Production then ClaimThing(st, f.b) else [])
    ensures Grown(start, st, packet, disclosed[..n + 1]) <= Grown(start, st, packet, disclosed)
  {
    assert disclosed[..n + 1][..n] == disclosed[..n];
    DisclosureThingsPrefix(st, disclosed, n + 1);
  }

  // Both views of every disclosed conflict, numbered as they are met.
  method Disclose(refs: OpaqueRefs, st: State, packet: PacketType, disclosed: seq<Id>, ghost total: seq<Thing>)
    returns (disclosures: seq<Disclosure>)
    requires refs.Valid() && forall f :: f in disclosed ==> f in st.conflicts
    requires Grown(refs.stream, st, packet, disclosed) <= total
    modifies refs
    ensures refs.Valid() && refs.excluded == old(refs.excluded)
    ensures refs.stream == Grown(old(refs.stream), st, packet, disclosed)
    ensures disclosures == DisclosuresOf(st, packet, Dedup(total), disclosed)
  {
    hide Dedup, DisclosureThings, OpaqueRefs.Valid, Grown;
    disclosures := [];
    ghost var start := refs.stream;
    assert disclosed[..0] == [];
    GrownNone(start, st, packet);
    for n := 0 to |disclosed|
      invariant refs.Valid() && refs.excluded == old(refs.excluded)
      invariant refs.stream == Grown(start, st, packet, disclosed[..n])
      invariant |disclosures| == n
      invariant forall i :: 0 <= i < n ==> disclosures[i] == DisclosureOf(st, packet, Dedup(total), disclosed[i])
    {
      var f := disclosed[n];
      assert f in disclosed;
      GrownOnce(start, st, packet, disclosed, n);
      var a := refs.PacketClaim(st, packet, st.conflicts[f].a);
      ghost var afterA := refs.stream;
      var b := refs.PacketClaim(st, packet, st.conflicts[f].b);
      assert afterA <= refs.stream <= total;
      ViewStable(st, packet, afterA, total, st.conflicts[f].a);
      ViewStable(st, packet, refs.stream, total, st.conflicts[f].b);
      disclosures := disclosures + [Disclosure(f, a, b)];
    }
    assert disclosed[..|disclosed|] == disclosed;
  }

  lemma GrownNone(start: seq<Thing>, st: State, packet: PacketType)
    ensures Grown(start, st, packet, []) == start
  {
  }

  // ---- One section ----

  method PlanSection(st: State, packet: PacketType, id: Id) returns (plan: Plan)
    requires id in st.sections
    ensures plan == PlanOf(st, packet, id)
  {
    hide ImpactOf, RevisionApprovalCurrent, EvidenceOf, DisclosuresMet, Dedup;
    var revision := ActiveRevision(st, id);
    var approved := packet == Production && ApprovedNow(st, id);
    var snapshot := if approved then revision.value.content.snapshot else st.sections[id].snapshot;
    var impact := ImpactOf(st, snapshot.cites).status;
    var privileged := exists c :: c in snapshot.cites && Withheld(st, c);
    var treatment := Treatment(packet, privileged, approved, impact);
    var disclosed: seq<Id> := [];
    if treatment.0 == Included {
      var walked := snapshot.cites;
      if packet == Production {
        walked := ProductionEvidenceClaimIds(st.conflicts, snapshot.cites);
      }
      disclosed := CollectDisclosed(st, walked);
    }
    plan := Plan(id, snapshot, RefOfRevision(revision), impact, treatment.0, treatment.1, disclosed);
  }

  ghost predicate WellPlanned(st: State, packet: PacketType, plan: Plan)
  {
    && PlanKnown(st, plan)
    && (plan.disposition != Included ==> packet == Production && plan.disclosed == [])
  }

  lemma PlansAreWell(st: State, packet: PacketType, id: Id)
    requires id in st.sections
    ensures WellPlanned(st, packet, PlanOf(st, packet, id))
    ensures PlanOf(st, packet, id).id == id
  {
    hide DisclosedConflicts, ImpactOf, ApprovedNow;
    DisclosedAreKnown(st, packet, id);
  }

  // One entry of the manifest, with the opaque numbers it takes.
  method BuildEntry(refs: OpaqueRefs, st: State, packet: PacketType, plan: Plan, ghost total: seq<Thing>)
    returns (entry: Entry)
    requires refs.Valid() && WellPlanned(st, packet, plan)
    requires WithheldSection(plan.id) !in refs.stream
    requires refs.stream + PlanThings(st, packet, plan) <= total
    modifies refs
    ensures refs.Valid() && refs.stream == old(refs.stream) + PlanThings(st, packet, plan)
    ensures refs.excluded == old(refs.excluded) + if plan.disposition == ExcludedEntry then 1 else 0
    ensures entry == EntryOf(st, packet, Dedup(total), plan, old(refs.excluded))
  {
    hide Dedup, DisclosureThings, OpaqueRefs.Valid;
    Nothing(refs.stream);
    ghost var start := refs.stream;
    var disclosures := [];
    if plan.disposition == Included {
      disclosures := Disclose(refs, st, packet, plan.disclosed, total);
    }
    if Sanitized(packet, plan) {
      var artifact;
      if plan.disposition == WithheldEntry {
        var number := refs.SectionRef(plan.id);
        SectionRefStable(refs.stream, total, plan.id);
        artifact := WithheldRef(number);
      } else {
        var number := refs.ExcludedNumber();
        artifact := ExcludedRef(number);
      }
      entry := Entry(plan.id, plan.snapshot.cites, artifact, None, None,
                     if plan.disposition == WithheldEntry then PrivilegedMaterial else SectionNeedsReview,
                     plan.disposition, plan.reason, disclosures);
    } else {
      entry := Entry(plan.id, plan.snapshot.cites, RealId(plan.id),
                     plan.revision, Some(plan.snapshot), plan.impact, plan.disposition, plan.reason, disclosures);
    }
  }

  lemma SectionRefStable(part: seq<Thing>, total: seq<Thing>, id: Id)
    requires part <= total && WithheldSection(id) in part
    ensures RefOf(Dedup(part), WithheldSection(id)) == RefOf(Dedup(total), WithheldSection(id))
  {
    DedupOfPrefix(part, total);
    IndexOfPrefix(Dedup(part), Dedup(total), WithheldSection(id));
  }

  // ---- All entries ----

  lemma {:induction false} SectionsWithheldSoFar(st: State, packet: PacketType, plans: seq<Plan>, id: Id)
    requires forall i :: 0 <= i < |plans| ==> plans[i].id != id
    ensures WithheldSection(id) !in AllThings(st, packet, plans)
  {
    if plans != [] {
      SectionsWithheldSoFar(st, packet, plans[..|plans| - 1], id);
      NoSectionDisclosed(st, plans[|plans| - 1].disclosed, id);
    }
  }

  lemma {:induction false} NoSectionDisclosed(st: State, disclosed: seq<Id>, id: Id)
    ensures WithheldSection(id) !in DisclosureThings(st, disclosed)
  {
    if disclosed != [] {
      NoSectionDisclosed(st, disclosed[..|disclosed| - 1], id);
    }
  }

  lemma ThingsSnoc(st: State, packet: PacketType, plans: seq<Plan>, n: nat)
    requires n < |plans|
    ensures AllThings(st, packet, plans[..n + 1]) == AllThings(st, packet, plans[..n]) + PlanThings(st, packet, plans[n])
    ensures AllThings(st, packet, plans[..n + 1]) <= AllThings(st, packet, plans)
    ensures CountOf(plans[..n + 1], ExcludedEntry)
            == CountOf(plans[..n], ExcludedEntry) + if plans[n].disposition == ExcludedEntry then 1 else 0
  {
    assert plans[..n + 1][..n] == plans[..n];
    AllThingsPrefix(st, packet, plans, n + 1);
  }

  lemma EntriesSnoc(st: State, packet: PacketType, refs: seq<Thing>, plans: seq<Plan>, n: nat)
    requires n < |plans| && PlansKnown(st, plans[..n + 1]) && PlansKnown(st, plans[..n]) && PlanKnown(st, plans[n])
    ensures EntriesOf(st, packet, refs, plans[..n + 1])
            == EntriesOf(st, packet, refs, plans[..n]) + [EntryOf(st, packet, refs, plans[n], CountOf(plans[..n], ExcludedEntry))]
  {
    assert plans[..n + 1][..n] == plans[..n];
  }

  lemma KnownPrefix(st: State, plans: seq<Plan>, n: nat)
    requires PlansKnown(st, plans) && n <= |plans|
    ensures PlansKnown(st, plans[..n])
  {
    forall i | 0 <= i < n ensures PlanKnown(st, plans[..n][i]) {
      assert PlanKnown(st, plans[i]);
    }
  }

  lemma SectionsListed(st: State, caseId: Id)
    ensures var ids := SectionsInOrder(st, caseId);
            Distinct(ids) && forall s :: s in ids ==> s in st.sections
  {
    var ids := set s | s in st.sections && st.sections[s].caseId == caseId;
    SortedByFacts(ids, map s | s in ids :: st.sections[s].position);
  }

  lemma NoPlans(st: State, packet: PacketType, refs: seq<Thing>)
    ensures AllThings(st, packet, []) == [] && EntriesOf(st, packet, refs, []) == [] && CountOf([], ExcludedEntry) == 0
  {
  }

  method BuildEntries(refs: OpaqueRefs, st: State, caseId: Id, packet: PacketType) returns (entries: seq<Entry>)
    requires refs.Valid() && refs.stream == [] && refs.excluded == 0
    modifies refs
    ensures PlansKnown(st, PlansIn(st, caseId, packet))
    ensures refs.Valid() && refs.stream == AllThings(st, packet, PlansIn(st, caseId, packet))
    ensures entries == EntriesOf(st, packet, RefsIn(st, caseId, packet), PlansIn(st, caseId, packet))
  {
    hide Dedup, OpaqueRefs.Valid, PlanThings, SectionsInOrder, EntryOf, PlanOf, WellPlanned, AllThings, EntriesOf, CountOf;
    var ids := SectionsInOrder(st, caseId);
    ghost var plans := PlansIn(st, caseId, packet);
    ghost var total := AllThings(st, packet, plans);
    PlansInKnown(st, caseId, packet);
    SectionsListed(st, caseId);
    entries := [];
    assert plans[..0] == [];
    NoPlans(st, packet, Dedup(total));
    for n := 0 to |ids|
      invariant refs.Valid() && PlansKnown(st, plans[..n])
      invariant refs.stream == AllThings(st, packet, plans[..n])
      invariant refs.excluded == CountOf(plans[..n], ExcludedEntry)
      invariant entries == EntriesOf(st, packet, Dedup(total), plans[..n])
    {
      assert ids[n] in ids;
      var plan := PlanSection(st, packet, ids[n]);
      assert plan == plans[n];
      PlansAreWell(st, packet, ids[n]);
      KnownPrefix(st, plans, n + 1);
      ThingsSnoc(st, packet, plans, n);
      NotYetWithheld(st, packet, ids, plans, n);
      assert PlanKnown(st, plans[n]);
      EntriesSnoc(st, packet, Dedup(total), plans, n);
      var entry := BuildEntry(refs, st, packet, plan, total);
      entries := entries + [entry];
    }
    assert plans[..|ids|] == plans;
  }

  lemma NotYetWithheld(st: State, packet: PacketType, ids: seq<Id>, plans: seq<Plan>, n: nat)
    requires n < |ids| == |plans| && Distinct(ids)
    requires forall s :: s in ids ==> s in st.sections
    requires forall i :: 0 <= i < |plans| ==> ids[i] in ids && plans[i] == PlanOf(st, packet, ids[i])
    ensures WithheldSection(plans[n].id) !in AllThings(st, packet, plans[..n])
  {
    hide PlanOf, AllThings, WellPlanned;
    PlansAreWell(st, packet, ids[n]);
    forall i | 0 <= i < n ensures plans[..n][i].id != plans[n].id {
      PlansAreWell(st, packet, ids[i]);
    }
    SectionsWithheldSoFar(st, packet, plans[..n], plans[n].id);
  }

  // ---- Cited claims ----

  // An entry that prints citations prints none that is withheld, and every view
  // in it is the packet's one view of that claim.
  ghost predicate EntrySafe(st: State, packet: PacketType, refs: seq<Thing>, entry: Entry)
  {
    && (packet == Production && entry.disposition == Included && entry.shown.Some? ==>
          forall c :: c in entry.shown.value.cites ==> !Withheld(st, c))
    && forall i :: 0 <= i < |entry.disclosures| ==> DisclosureSafe(st, packet, refs, entry.disclosures[i])
  }

  ghost predicate DisclosureSafe(st: State, packet: PacketType, refs: seq<Thing>, d: Disclosure)
  {
    d.a == ViewOf(st, packet, refs, d.a.id) && d.b == ViewOf(st, packet, refs, d.b.id)
  }

  lemma PlanIsSafe(st: State, packet: PacketType, id: Id)
    requires id in st.sections
    ensures var plan := PlanOf(st, packet, id);
            packet == Production && plan.disposition == Included ==> forall c :: c in plan.snapshot.cites ==> !Withheld(st, c)
  {
  }

  lemma EntryIsSafe(st: State, packet: PacketType, refs: seq<Thing>, plan: Plan, excluded: nat)
    requires PlanKnown(st, plan)
    requires packet == Production && plan.disposition == Included ==> forall c :: c in plan.snapshot.cites ==> !Withheld(st, c)
    ensures EntrySafe(st, packet, refs, EntryOf(st, packet, refs, plan, excluded))
  {
    var entry := EntryOf(st, packet, refs, plan, excluded);
    forall i | 0 <= i < |entry.disclosures| ensures DisclosureSafe(st, packet, refs, entry.disclosures[i]) {
      assert entry.disclosures[i] == DisclosureOf(st, packet, refs, plan.disclosed[i]);
    }
  }

  lemma {:induction false} EntriesAreSafe(st: State, packet: PacketType, refs: seq<Thing>, plans: seq<Plan>, k: nat)
    requires PlansKnown(st, plans) && k < |plans|
    requires forall i :: 0 <= i < |plans| ==> plans[i].id in st.sections && plans[i] == PlanOf(st, packet, plans[i].id)
    ensures EntrySafe(st, packet, refs, EntriesOf(st, packet, refs, plans)[k])
  {
    hide PlanOf, EntryOf, EntrySafe;
    var n := |plans| - 1;
    KnownPrefix(st, plans, n);
    assert PlanKnown(st, plans[n]);
    if k < n {
      EntriesAreSafe(st, packet, refs, plans[..n], k);
    } else {
      PlanIsSafe(st, packet, plans[n].id);
      EntryIsSafe(st, packet, refs, plans[n], CountOf(plans[..n], ExcludedEntry));
    }
  }

  // The memo `cited_by_id` while it fills.
  ghost predicate CitedSoFar(st: State, packet: PacketType, refs: seq<Thing>, cited: map<Id, ClaimView>, ids: set<Id>)
  {
    cited.Keys == ids && forall c :: c in cited ==> cited[c] == ViewOf(st, packet, refs, c)
  }

  method CiteClaims(refs: OpaqueRefs, st: State, packet: PacketType, cites: seq<Id>, before: map<Id, ClaimView>,
                    ghost ids: set<Id>) returns (cited: map<Id, ClaimView>)
    requires refs.Valid() && CitedSoFar(st, packet, refs.Issued(), before, ids)
    requires packet == Production ==> forall c :: c in cites ==> !Withheld(st, c)
    modifies refs
    ensures refs.Valid() && refs.stream == old(refs.stream)
    ensures CitedSoFar(st, packet, refs.Issued(), cited, ids + KnownClaims(st, cites))
  {
    hide Dedup, OpaqueRefs.Valid;
    cited := before;
    assert ids + KnownClaims(st, cites[..0]) == ids;
    for n := 0 to |cites|
      invariant refs.Valid() && refs.stream == old(refs.stream)
      invariant CitedSoFar(st, packet, refs.Issued(), cited, ids + KnownClaims(st, cites[..n]))
    {
      assert cites[n] in cites;
      assert forall c :: c in cites[..n + 1] <==> c in cites[..n] || c == cites[n];
      if cites[n] in st.claims {
        Nothing(refs.stream);
        var view := refs.PacketClaim(st, packet, cites[n]);
        cited := cited[cites[n] := view];
        assert KnownClaims(st, cites[..n + 1]) == KnownClaims(st, cites[..n]) + {cites[n]};
      } else {
        assert KnownClaims(st, cites[..n + 1]) == KnownClaims(st, cites[..n]);
      }
    }
    assert cites[..|cites|] == cites;
  }

  function WithShown(cited: map<Id, ClaimView>, v: ClaimView): map<Id, ClaimView>
  {
    if v.redacted then cited else cited[v.id := v]
  }

  method CiteDisclosures(ghost refs: seq<Thing>, ghost st: State, ghost packet: PacketType,
                         disclosures: seq<Disclosure>,
                         before: map<Id, ClaimView>, ghost ids: set<Id>) returns (cited: map<Id, ClaimView>)
    requires CitedSoFar(st, packet, refs, before, ids)
    requires forall i :: 0 <= i < |disclosures| ==> DisclosureSafe(st, packet, refs, disclosures[i])
    ensures CitedSoFar(st, packet, refs, cited, ids + ShownEnds(disclosures))
  {
    cited := before;
    assert ids + ShownEnds(disclosures[..0]) == ids;
    for n := 0 to |disclosures|
      invariant CitedSoFar(st, packet, refs, cited, ids + ShownEnds(disclosures[..n]))
    {
      assert disclosures[..n + 1][..n] == disclosures[..n];
      assert DisclosureSafe(st, packet, refs, disclosures[n]);
      cited := WithShown(WithShown(cited, disclosures[n].a), disclosures[n].b);
    }
    assert disclosures[..|disclosures|] == disclosures;
  }

  method CiteEntries(refs: OpaqueRefs, st: State, packet: PacketType,
                     entries: seq<Entry>) returns (cited: seq<ClaimView>)
    requires refs.Valid()
    requires forall i :: 0 <= i < |entries| ==> EntrySafe(st, packet, refs.Issued(), entries[i])
    modifies refs
    ensures refs.Valid() && refs.stream == old(refs.stream)
    ensures cited == Views(st, packet, refs.Issued(), Sorted(CitedByAll(st, entries)))
  {
    hide Dedup, OpaqueRefs.Valid, KnownClaims, ShownEnds;
    var byId: map<Id, ClaimView> := map[];
    ghost var issued := refs.Issued();
    for n := 0 to |entries|
      invariant refs.Valid() && refs.stream == old(refs.stream) && refs.Issued() == issued
      invariant CitedSoFar(st, packet, issued, byId, CitedByAll(st, entries[..n]))
    {
      var entry := entries[n];
      assert entries[..n + 1][..n] == entries[..n];
      ghost var ids := CitedByAll(st, entries[..n]);
      assert EntrySafe(st, packet, issued, entry);
      if entry.disposition == Included {
        if entry.shown.Some? {
          byId := CiteClaims(refs, st, packet, entry.shown.value.cites, byId, ids);
          ids := ids + KnownClaims(st, entry.shown.value.cites);
        }
        byId := CiteDisclosures(issued, st, packet, entry.disclosures, byId, ids);
        ids := ids + ShownEnds(entry.disclosures);
      }
      assert CitedByAll(st, entries[..n + 1]) == ids;
    }
    assert entries[..|entries|] == entries;
    var order := Sorted(byId.Keys);
    SortedFacts(byId.Keys);
    cited := seq(|order|, i requires 0 <= i < |order| && order[i] in byId => byId[order[i]]);
  }

  // ---- The privilege log ----

  class PrivilegeLog {
    var order: seq<Id>
    var refs: map<Id, seq<nat>>
    ghost var lines: seq<LogLine>

    ghost predicate Valid()
      reads this
    {
      order == Dedup(LineSources(lines)) && refs.Keys == Elements(order) && forall s :: s in refs ==> refs[s] == RefsFor(lines, s)
    }

    constructor ()
      ensures Valid() && lines == []
    {
      order, refs, lines := [], map[], [];
    }

    // One line per source, each reference once.
    method Log(st: State, claim: Id, ref: nat)
      requires Valid()
      modifies this
      ensures Valid() && lines == old(lines) + LogLineFor(st, claim, ref)
    {
      hide Valid;
      if claim in st.claims && st.claims[claim].sourceId in st.sources {
        LogSource(st.claims[claim].sourceId, ref);
      } else {
        Nothing(lines);
      }
    }

    method LogSource(source: Id, ref: nat)
      requires Valid()
      modifies this
      ensures Valid() && lines == old(lines) + [(source, ref)]
    {
      hide Dedup, RefsFor;
      LoggedOnce(lines, source, ref);
      if source !in refs {
        order := order + [source];
        refs := refs[source := []];
      }
      if ref !in refs[source] {
        refs := refs[source := refs[source] + [ref]];
      }
      lines := lines + [(source, ref)];
    }

    method LogWithheld(st: State, cites: seq<Id>, ref: nat)
      requires Valid()
      modifies this
      ensures Valid() && lines == old(lines) + WithheldLines(st, cites, ref)
    {
      hide Valid, LogLineFor;
      assert cites[..0] == [];
      Nothing(lines);
      for n := 0 to |cites|
        invariant Valid() && lines == old(lines) + WithheldLines(st, cites[..n], ref)
      {
        assert cites[..n + 1][..n] == cites[..n];
        if Withheld(st, cites[n]) {
          Log(st, cites[n], ref);
        }
      }
      assert cites[..|cites|] == cites;
    }

    method LogView(st: State, v: ClaimView)
      requires Valid()
      modifies this
      ensures Valid() && lines == old(lines) + ViewLine(st, v)
    {
      hide Valid, LogLineFor;
      if v.redacted && v.ref.Some? {
        Log(st, v.id, v.ref.value);
      } else {
        Nothing(lines);
      }
    }

    method LogDisclosures(st: State, disclosures: seq<Disclosure>)
      requires Valid()
      modifies this
      ensures Valid() && lines == old(lines) + DisclosureLines(st, disclosures)
    {
      hide Valid, ViewLine;
      assert disclosures[..0] == [];
      Nothing(lines);
      for n := 0 to |disclosures|
        invariant Valid() && lines == old(lines) + DisclosureLines(st, disclosures[..n])
      {
        assert disclosures[..n + 1][..n] == disclosures[..n];
        LogView(st, disclosures[n].a);
        LogView(st, disclosures[n].b);
      }
      assert disclosures[..|disclosures|] == disclosures;
    }

    method LogEntries(st: State, entries: seq<Entry>)
      requires Valid() && lines == []
      modifies this
      ensures Valid() && lines == AllLines(st, entries)
    {
      hide Valid, WithheldLines, DisclosureLines;
      for n := 0 to |entries|
        invariant Valid() && lines == AllLines(st, entries[..n])
      {
        var entry := entries[n];
        assert entries[..n + 1][..n] == entries[..n];
        ghost var before := lines;
        if entry.disposition == WithheldEntry && entry.artifact.WithheldRef? {
          LogWithheld(st, entry.privateCites, entry.artifact.number);
        } else {
          Nothing(lines);
        }
        LogDisclosures(st, entry.disclosures);
        assert lines == before + EntryLines(st, entry);
      }
      assert entries[..|entries|] == entries;
    }

    method Listing() returns (log: seq<LogEntry>)
      requires Valid()
      ensures log == LogOf(lines)
    {
      var sources, byId := order, refs;
      log := seq(|sources|, i requires 0 <= i < |sources| && sources[i] in byId => LogEntry(sources[i], byId[sources[i]]));
    }
  }

  lemma LoggedOnce(lines: seq<LogLine>, source: Id, ref: nat)
    ensures var after := lines + [(source, ref)];
      && Dedup(LineSources(after)) == (if source in Dedup(LineSources(lines)) then Dedup(LineSources(lines))
                                       else Dedup(LineSources(lines)) + [source])
      && (forall s :: s != source ==> RefsFor(after, s) == RefsFor(lines, s))
      && RefsFor(after, source) == (if ref in RefsFor(lines, source) then RefsFor(lines, source)
                                    else RefsFor(lines, source) + [ref])
    ensures source !in Dedup(LineSources(lines)) ==> RefsFor(lines, source) == []
  {
    var after := lines + [(source, ref)];
    assert after[..|lines|] == lines;
    assert LineSources(after) == LineSources(lines) + [source];
    DedupSnoc(LineSources(lines), source);
    if source !in Dedup(LineSources(lines)) { NoRefs(lines, source); }
  }

  lemma {:induction false} NoRefs(lines: seq<LogLine>, source: Id)
    requires source !in LineSources(lines)
    ensures RefsFor(lines, source) == []
  {
    if lines != [] {
      var n := |lines| - 1;
      assert LineSources(lines)[n] in LineSources(lines);
      assert LineSources(lines) == LineSources(lines[..n]) + [lines[n].0];
      NoRefs(lines[..n], source);
    }
  }

  // ---- The packet ----

  method BuildPacket(st: State, caseId: Id, packet: PacketType) returns (result: Packet)
    ensures result == PacketOf(st, caseId, packet)
  {
    hide Dedup, OpaqueRefs.Valid, PrivilegeLog.Valid, PlansIn, EntriesOf, AllThings, Views, SourcesOf, LogOf,
         AllLines, CountOf, EntrySafe;
    var refs := new OpaqueRefs();
    var entries := BuildEntries(refs, st, caseId, packet);
    ghost var plans := PlansIn(st, caseId, packet);
    AllEntriesSafe(st, caseId, packet);
    var cited := CiteEntries(refs, st, packet, entries);
    var log: seq<LogEntry> := [];
    if packet == Production {
      var logged := new PrivilegeLog();
      logged.LogEntries(st, entries);
      log := logged.Listing();
    }
    CountsAgree(st, packet, refs.Issued(), plans);
    result := Packet(packet, entries, cited, Sorted(SourcesOf(st, cited)), log, DecisionsFor(st, caseId, packet),
                     EntryCount(entries, Included), EntryCount(entries, ExcludedEntry), EntryCount(entries, WithheldEntry));
  }

  lemma AllEntriesSafe(st: State, caseId: Id, packet: PacketType)
    requires PlansKnown(st, PlansIn(st, caseId, packet))
    ensures var entries := EntriesOf(st, packet, RefsIn(st, caseId, packet), PlansIn(st, caseId, packet));
            forall i :: 0 <= i < |entries| ==> EntrySafe(st, packet, RefsIn(st, caseId, packet), entries[i])
  {
    hide PlanOf, EntrySafe, EntriesOf, AllThings, Dedup;
    var plans := PlansIn(st, caseId, packet);
    SectionsListed(st, caseId);
    forall i | 0 <= i < |plans| ensures plans[i].id in st.sections && plans[i] == PlanOf(st, packet, plans[i].id) {
      assert SectionsInOrder(st, caseId)[i] in SectionsInOrder(st, caseId);
      PlansAreWell(st, packet, SectionsInOrder(st, caseId)[i]);
    }
    forall i | 0 <= i < |plans|
      ensures EntrySafe(st, packet, RefsIn(st, caseId, packet), EntriesOf(st, packet, RefsIn(st, caseId, packet), plans)[i])
    {
      EntriesAreSafe(st, packet, RefsIn(st, caseId, packet), plans, i);
    }
  }

  function EntryCount(entries: seq<Entry>, d: Disposition): nat
  {
    if entries == [] then 0
    else EntryCount(entries[..|entries| - 1], d) + if entries[|entries| - 1].disposition == d then 1 else 0
  }

  lemma {:induction false} CountsAgree(st: State, packet: PacketType, refs: seq<Thing>, plans: seq<Plan>)
    requires PlansKnown(st, plans)
    ensures forall d :: EntryCount(EntriesOf(st, packet, refs, plans), d) == CountOf(plans, d)
  {
    if plans != [] {
      var n := |plans| - 1;
      KnownPrefix(st, plans, n);
      assert PlanKnown(st, plans[n]);
      CountsAgree(st, packet, refs, plans[..n]);
      assert EntriesOf(st, packet, refs, plans)[..n] == EntriesOf(st, packet, refs, plans[..n]);
    }
  }
}
