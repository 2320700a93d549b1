// The evidence packet of a matter: what it contains, as a function of the
// evidence tables, and what its body shows of them.

module Packets {
  import opened Basics
  import opened Domain
  import opened Chains
  import opened Evidence

  datatype PacketType = Internal | Production

  datatype Disposition = Included | ExcludedEntry | WithheldEntry

  datatype Reason = AllEligible | DisclosureAttached | UnderPrivilege | NotProduced | ForInternalUse(status: SectionStatus)

  // ---- One section's treatment ----

  // What the manifest names of a revision.
  type RevisionRef = (Id, ContentHash)

  datatype Plan = Plan(id: Id, snapshot: Snapshot, revision: Option<RevisionRef>, impact: SectionStatus,
                       disposition: Disposition, reason: Reason, disclosed: seq<Id>)

  function SectionsInOrder(st: State, caseId: Id): seq<Id>
  {
    var ids := set s | s in st.sections && st.sections[s].caseId == caseId;
    SortedBy(ids, map s | s in ids :: st.sections[s].position)
  }

  function ActiveRevision(st: State, id: Id): Option<Revision>
    requires id in st.sections
  {
    var section := st.sections[id];
    if section.active.None? || section.active.value !in st.revisions then None
    else
      var revision := st.revisions[section.active.value];
      if revision.content.sectionId == id && revision.content.caseId == section.caseId then Some(revision) else None
  }

  // The verdict that puts an immutable revision, not the mutable row, in production.
  predicate ApprovedNow(st: State, id: Id)
    requires id in st.sections
  {
    && ActiveRevision(st, id).Some?
    && st.sections[id].approvalCurrent
    && RevisionApprovalCurrent(st, ActiveRevision(st, id).value)
  }

  predicate Withheld(st: State, claim: Id) { claim in st.claims && st.claims[claim].privilege.Withholding() }

  function Treatment(packet: PacketType, privileged: bool, approved: bool, impact: SectionStatus): (Disposition, Reason)
  {
    if packet == Internal then (Included, ForInternalUse(impact))
    else if privileged then (WithheldEntry, UnderPrivilege)
    else if !approved then (ExcludedEntry, NotProduced)
    else if impact == SectionEligible then (Included, AllEligible)
    else if impact == WithDisclosure then (Included, DisclosureAttached)
    else if impact == PrivilegedMaterial then (WithheldEntry, UnderPrivilege)
    else (ExcludedEntry, NotProduced)
  }

  predicate Disclosable(st: State, f: Id)
  {
    f in st.conflicts && st.conflicts[f].status == PreservedBoth &&
    st.conflicts[f].a in st.claims && st.conflicts[f].b in st.claims
  }

  function KeepDisclosable(st: State, ids: seq<Id>): seq<Id>
  {
    if ids == [] then []
    else
      var last := ids[|ids| - 1];
      KeepDisclosable(st, ids[..|ids| - 1]) + if Disclosable(st, last) then [last] else []
  }

  lemma {:induction false} KeepFacts(st: State, ids: seq<Id>)
    ensures forall f :: f in KeepDisclosable(st, ids) <==> f in ids && Disclosable(st, f)
  {
    if ids != [] {
      KeepFacts(st, ids[..|ids| - 1]);
      assert forall f :: f in ids <==> f in ids[..|ids| - 1] || f == ids[|ids| - 1];
    }
  }

  // The preserved conflicts met while walking the claims in order.
  function DisclosuresMet(st: State, claims: seq<Id>): seq<Id>
  {
    if claims == [] then []
    else
      var front, last := claims[..|claims| - 1], claims[|claims| - 1];
      DisclosuresMet(st, front) +
      if last in st.claims && st.claims[last].status == Preserved
      then KeepDisclosable(st, RelatedConflicts(st.conflicts, last)) else []
  }

  // A claim that brings a conflict into the disclosures.
  predicate MetAt(st: State, c: Id, f: Id)
  {
    c in st.claims && st.claims[c].status == Preserved && f in st.conflicts && st.conflicts[f].Touches(c)
  }

  lemma {:induction false} MetExactly(st: State, claims: seq<Id>, f: Id)
    ensures f in DisclosuresMet(st, claims) <==> Disclosable(st, f) && MetAmong(st, claims, f)
  {
    hide Disclosable, MetAt, RelatedConflicts;
    if claims != [] {
      var n := |claims| - 1;
      MetExactly(st, claims[..n], f);
      MetLast(st, claims, f);
      MetAmongSnoc(st, claims, f);
    }
  }

  ghost predicate MetAmong(st: State, claims: seq<Id>, f: Id) { exists c :: c in claims && MetAt(st, c, f) }

  lemma MetAmongSnoc(st: State, claims: seq<Id>, f: Id)
    requires claims != []
    ensures MetAmong(st, claims, f) <==> MetAmong(st, claims[..|claims| - 1], f) || MetAt(st, claims[|claims| - 1], f)
  {
    hide MetAt;
    assert claims == claims[..|claims| - 1] + [claims[|claims| - 1]];
  }

  lemma MetLast(st: State, claims: seq<Id>, f: Id)
    requires claims != []
    ensures var n := |claims| - 1;
            f in DisclosuresMet(st, claims) <==> f in DisclosuresMet(st, claims[..n]) || (Disclosable(st, f) && MetAt(st, claims[n], f))
  {
    hide Disclosable;
    KeepFacts(st, RelatedConflicts(st.conflicts, claims[|claims| - 1]));
  }

  function DisclosedConflicts(st: State, packet: PacketType, cites: seq<Id>): seq<Id>
  {
    Dedup(DisclosuresMet(st, if packet == Production then EvidenceOf(st.conflicts, cites) else cites))
  }

  function RefOfRevision(revision: Option<Revision>): Option<RevisionRef>
  {
    if revision.Some? then Some((revision.value.id, revision.value.content.contentHash)) else None
  }

  function PlanOf(st: State, packet: PacketType, id: Id): Plan
    requires id in st.sections
  {
    var revision := ActiveRevision(st, id);
    var approved := packet == Production && ApprovedNow(st, id);
    var snapshot := if approved then revision.value.content.snapshot else st.sections[id].snapshot;
    var impact := ImpactOf(st, snapshot.cites).status;
    var privileged := exists c :: c in snapshot.cites && Withheld(st, c);
    var treatment := Treatment(packet, privileged, approved, impact);
    Plan(id, snapshot, RefOfRevision(revision), impact, treatment.0, treatment.1,
         if treatment.0 == Included then DisclosedConflicts(st, packet, snapshot.cites) else [])
  }

  function PlansOf(st: State, packet: PacketType, ids: seq<Id>): (r: seq<Plan>)
    requires forall s :: s in ids ==> s in st.sections
    ensures |r| == |ids|
    ensures forall i :: 0 <= i < |r| ==> r[i] == PlanOf(st, packet, ids[i])
  {
    seq(|ids|, i requires 0 <= i < |ids| => PlanOf(st, packet, ids[i]))
  }

  // ---- Opaque references ----

  // Whatever is withheld gets the number of its first appearance.
  datatype Thing = WithheldClaim(claim: Id) | WithheldSection(section: Id)

  function ClaimThing(st: State, claim: Id): seq<Thing>
  {
    if Withheld(st, claim) then [WithheldClaim(claim)] else []
  }

  function DisclosureThings(st: State, disclosed: seq<Id>): seq<Thing>
  {
    if disclosed == [] then []
    else
      var front, last := disclosed[..|disclosed| - 1], disclosed[|disclosed| - 1];
      DisclosureThings(st, front) +
      if last in st.conflicts then ClaimThing(st, st.conflicts[last].a) + ClaimThing(st, st.conflicts[last].b) else []
  }

  function PlanThings(st: State, packet: PacketType, plan: Plan): seq<Thing>
  {
    if packet == Internal then []
    else match plan.disposition
      case Included => DisclosureThings(st, plan.disclosed)
      case WithheldEntry => [WithheldSection(plan.id)]
      case ExcludedEntry => []
  }

  function AllThings(st: State, packet: PacketType, plans: seq<Plan>): seq<Thing>
  {
    if plans == [] then []
    else AllThings(st, packet, plans[..|plans| - 1]) + PlanThings(st, packet, plans[|plans| - 1])
  }

  function RefOf(refs: seq<Thing>, thing: Thing): Option<nat>
  {
    if thing in refs then Some(IndexOf(refs, thing) + 1) else None
  }

  // ---- Entries ----

  datatype ArtifactRef = RealId(id: Id) | WithheldRef(number: nat) | ExcludedRef(number: nat)

  datatype ClaimView = ClaimView(id: Id, redacted: bool, ref: Option<nat>)

  datatype Disclosure = Disclosure(conflict: Id, a: ClaimView, b: ClaimView)

  // `shown` is absent for a sanitized entry, whose title and reference are opaque.
  datatype Entry = Entry(section: Id, privateCites: seq<Id>, artifact: ArtifactRef,
                         revision: Option<RevisionRef>, shown: Option<Snapshot>, impact: SectionStatus,
                         disposition: Disposition, reason: Reason, disclosures: seq<Disclosure>)

  function ViewOf(st: State, packet: PacketType, refs: seq<Thing>, claim: Id): ClaimView
  {
    if packet == Production && Withheld(st, claim) then ClaimView(claim, true, RefOf(refs, WithheldClaim(claim)))
    else ClaimView(claim, false, None)
  }

  function DisclosureOf(st: State, packet: PacketType, refs: seq<Thing>, f: Id): Disclosure
    requires f in st.conflicts
  {
    Disclosure(f, ViewOf(st, packet, refs, st.conflicts[f].a), ViewOf(st, packet, refs, st.conflicts[f].b))
  }

  function DisclosuresOf(st: State, packet: PacketType, refs: seq<Thing>, disclosed: seq<Id>): (r: seq<Disclosure>)
    requires forall f :: f in disclosed ==> f in st.conflicts
    ensures |r| == |disclosed|
    ensures forall i :: 0 <= i < |r| ==> r[i] == DisclosureOf(st, packet, refs, disclosed[i])
  {
    seq(|disclosed|, i requires 0 <= i < |disclosed| => DisclosureOf(st, packet, refs, disclosed[i]))
  }

  predicate Sanitized(packet: PacketType, plan: Plan) { packet == Production && plan.disposition != Included }

  function EntryOf(st: State, packet: PacketType, refs: seq<Thing>, plan: Plan, excludedBefore: nat): Entry
    requires forall f :: f in plan.disclosed ==> f in st.conflicts
  {
    var disclosures := DisclosuresOf(st, packet, refs, plan.disclosed);
    if Sanitized(packet, plan) then
      var artifact :=
        if plan.disposition == WithheldEntry then WithheldRef(RefOf(refs, WithheldSection(plan.id)).GetOr(0))
        else ExcludedRef(excludedBefore + 1);
      Entry(plan.id, plan.snapshot.cites, artifact, None, None,
            if plan.disposition == WithheldEntry then PrivilegedMaterial else SectionNeedsReview,
            plan.disposition, plan.reason, disclosures)
    else
      Entry(plan.id, plan.snapshot.cites, RealId(plan.id),
            plan.revision, Some(plan.snapshot), plan.impact, plan.disposition, plan.reason, disclosures)
  }

  function CountOf(plans: seq<Plan>, d: Disposition): nat
  {
    if plans == [] then 0
    else CountOf(plans[..|plans| - 1], d) + if plans[|plans| - 1].disposition == d then 1 else 0
  }

  ghost predicate PlansKnown(st: State, plans: seq<Plan>)
  {
    forall i :: 0 <= i < |plans| ==> PlanKnown(st, plans[i])
  }

  ghost predicate PlanKnown(st: State, plan: Plan)
  {
    forall f :: f in plan.disclosed ==> f in st.conflicts
  }

  function EntriesOf(st: State, packet: PacketType, refs: seq<Thing>, plans: seq<Plan>): (r: seq<Entry>)
    requires PlansKnown(st, plans)
    ensures |r| == |plans|
  {
    if plans == [] then []
    else
      var front, last := plans[..|plans| - 1], plans[|plans| - 1];
      assert PlanKnown(st, last);
      EntriesOf(st, packet, refs, front) + [EntryOf(st, packet, refs, last, CountOf(front, ExcludedEntry))]
  }

  // ---- Appendices ----

  function ShownEnd(v: ClaimView): set<Id> { if v.redacted then {} else {v.id} }

  function ShownEnds(disclosures: seq<Disclosure>): set<Id>
  {
    if disclosures == [] then {}
    else
      var last := disclosures[|disclosures| - 1];
      ShownEnds(disclosures[..|disclosures| - 1]) + ShownEnd(last.a) + ShownEnd(last.b)
  }

  function KnownClaims(st: State, ids: seq<Id>): (r: set<Id>)
    ensures forall c :: c in r <==> c in ids && c in st.claims
  {
    set c | c in ids && c in st.claims
  }

  function CitedBy(st: State, entry: Entry): set<Id>
  {
    if entry.disposition != Included then {}
    else (if entry.shown.Some? then KnownClaims(st, entry.shown.value.cites) else {}) + ShownEnds(entry.disclosures)
  }

  function CitedByAll(st: State, entries: seq<Entry>): set<Id>
  {
    if entries == [] then {}
    else CitedByAll(st, entries[..|entries| - 1]) + CitedBy(st, entries[|entries| - 1])
  }

  function Views(st: State, packet: PacketType, refs: seq<Thing>, ids: seq<Id>): (r: seq<ClaimView>)
    ensures |r| == |ids|
    ensures forall i :: 0 <= i < |r| ==> r[i] == ViewOf(st, packet, refs, ids[i])
  {
    seq(|ids|, i requires 0 <= i < |ids| => ViewOf(st, packet, refs, ids[i]))
  }

  // The stored sources of the claims shown.
  function SourcesOf(st: State, shown: seq<ClaimView>): set<Id>
  {
    if shown == [] then {}
    else
      var last := shown[|shown| - 1];
      SourcesOf(st, shown[..|shown| - 1]) +
      if !last.redacted && last.id in st.claims && st.claims[last.id].sourceId in st.sources
      then {st.claims[last.id].sourceId} else {}
  }

  // ---- Privilege log ----

  type LogLine = (Id, nat)

  datatype LogEntry = LogEntry(source: Id, refs: seq<nat>)

  function LogLineFor(st: State, claim: Id, ref: nat): seq<LogLine>
  {
    if claim in st.claims && st.claims[claim].sourceId in st.sources then [(st.claims[claim].sourceId, ref)] else []
  }

  function WithheldLines(st: State, cites: seq<Id>, ref: nat): seq<LogLine>
  {
    if cites == [] then []
    else
      var last := cites[|cites| - 1];
      WithheldLines(st, cites[..|cites| - 1], ref) + if Withheld(st, last) then LogLineFor(st, last, ref) else []
  }

  function ViewLine(st: State, v: ClaimView): seq<LogLine>
  {
    if v.redacted && v.ref.Some? then LogLineFor(st, v.id, v.ref.value) else []
  }

  function DisclosureLines(st: State, disclosures: seq<Disclosure>): seq<LogLine>
  {
    if disclosures == [] then []
    else
      var last := disclosures[|disclosures| - 1];
      DisclosureLines(st, disclosures[..|disclosures| - 1]) + ViewLine(st, last.a) + ViewLine(st, last.b)
  }

  function EntryLines(st: State, entry: Entry): seq<LogLine>
  {
    (if entry.disposition == WithheldEntry && entry.artifact.WithheldRef?
     then WithheldLines(st, entry.privateCites, entry.artifact.number) else [])
    + DisclosureLines(st, entry.disclosures)
  }

  function AllLines(st: State, entries: seq<Entry>): seq<LogLine>
  {
    if entries == [] then []
    else AllLines(st, entries[..|entries| - 1]) + EntryLines(st, entries[|entries| - 1])
  }

  function LineSources(lines: seq<LogLine>): (r: seq<Id>)
    ensures |r| == |lines|
    ensures forall i :: 0 <= i < |r| ==> r[i] == lines[i].0
  {
    seq(|lines|, i requires 0 <= i < |lines| => lines[i].0)
  }

  // The references logged against one source, first mention first.
  function RefsFor(lines: seq<LogLine>, source: Id): seq<nat>
  {
    if lines == [] then []
    else
      var before, last := RefsFor(lines[..|lines| - 1], source), lines[|lines| - 1];
      if last.0 == source && last.1 !in before then before + [last.1] else before
  }

  function LogOf(lines: seq<LogLine>): (r: seq<LogEntry>)
  {
    var sources := Dedup(LineSources(lines));
    seq(|sources|, i requires 0 <= i < |sources| => LogEntry(sources[i], RefsFor(lines, sources[i])))
  }

  // ---- Decision log ----

  datatype DecisionLine = DecisionLine(record: DecisionRecord, summary: string)

  // A decision belongs to the matter of its conflict.
  predicate RuledIn(st: State, caseId: Id, row: Row<DecisionRecord>)
  {
    row.content.conflictId in st.conflicts && st.conflicts[row.content.conflictId].caseId == caseId
  }

  function RulingsIn(st: State, caseId: Id): set<nat>
  {
    set i | 0 <= i < |st.DecisionsOf(caseId)| && RuledIn(st, caseId, st.DecisionsOf(caseId)[i])
  }

  function Recency(rows: seq<Row<DecisionRecord>>, ids: set<nat>): map<nat, int>
    requires forall i :: i in ids ==> i < |rows|
  {
    map i | i in ids :: -rows[i].content.at
  }

  // The latest decision first; of one instant, the first recorded first.
  function RulingOrder(st: State, caseId: Id): (r: seq<nat>)
    ensures forall i :: i in r <==> i in RulingsIn(st, caseId)
    ensures Distinct(r) && InOrder(Recency(st.DecisionsOf(caseId), RulingsIn(st, caseId)), r)
  {
    var rank := Recency(st.DecisionsOf(caseId), RulingsIn(st, caseId));
    SortedByFacts(RulingsIn(st, caseId), rank);
    SortedBy(RulingsIn(st, caseId), rank)
  }

  function DecisionLog(st: State, caseId: Id): (r: seq<DecisionLine>)
    ensures |r| == |RulingOrder(st, caseId)|
    ensures forall i :: 0 <= i < |r| ==>
              var row := st.DecisionsOf(caseId)[RulingOrder(st, caseId)[i]];
              RuledIn(st, caseId, row) && r[i] == DecisionLine(row.content, st.conflicts[row.content.conflictId].summary)
  {
    var rows, order := st.DecisionsOf(caseId), RulingOrder(st, caseId);
    assert forall i :: 0 <= i < |order| ==> order[i] in order;
    seq(|order|, i requires 0 <= i < |order| =>
      DecisionLine(rows[order[i]].content, st.conflicts[rows[order[i]].content.conflictId].summary))
  }

  // Only the internal packet has one.
  function DecisionsFor(st: State, caseId: Id, packet: PacketType): Option<seq<DecisionLine>>
  {
    if packet == Internal then Some(DecisionLog(st, caseId)) else None
  }

  // ---- The packet ----

  datatype Packet = Packet(packet: PacketType, entries: seq<Entry>, cited: seq<ClaimView>, citedSources: seq<Id>,
                           log: seq<LogEntry>, decisions: Option<seq<DecisionLine>>,
                           included: nat, excluded: nat, withheld: nat)

  function PlansIn(st: State, caseId: Id, packet: PacketType): seq<Plan>
  {
    var ids := set s | s in st.sections && st.sections[s].caseId == caseId;
    SortedByFacts(ids, map s | s in ids :: st.sections[s].position);
    PlansOf(st, packet, SectionsInOrder(st, caseId))
  }

  lemma DisclosedAreKnown(st: State, packet: PacketType, id: Id)
    requires id in st.sections
    ensures PlanKnown(st, PlanOf(st, packet, id))
    ensures forall f :: f in PlanOf(st, packet, id).disclosed ==> Disclosable(st, f)
  {
    var cites := PlanOf(st, packet, id).snapshot.cites;
    MetAreDisclosable(st, if packet == Production then EvidenceOf(st.conflicts, cites) else cites);
  }

  lemma {:induction false} MetAreDisclosable(st: State, claims: seq<Id>)
    ensures forall f :: f in DisclosuresMet(st, claims) ==> Disclosable(st, f)
  {
    if claims != [] {
      MetAreDisclosable(st, claims[..|claims| - 1]);
      KeepFacts(st, RelatedConflicts(st.conflicts, claims[|claims| - 1]));
    }
  }

  lemma PlansInKnown(st: State, caseId: Id, packet: PacketType)
    ensures PlansKnown(st, PlansIn(st, caseId, packet))
  {
    var ids := set s | s in st.sections && st.sections[s].caseId == caseId;
    SortedByFacts(ids, map s | s in ids :: st.sections[s].position);
    var plans := PlansIn(st, caseId, packet);
    forall i | 0 <= i < |plans| ensures PlanKnown(st, plans[i]) {
      var id := SectionsInOrder(st, caseId)[i];
      assert id in SectionsInOrder(st, caseId);
      DisclosedAreKnown(st, packet, id);
    }
  }

  function RefsIn(st: State, caseId: Id, packet: PacketType): (r: seq<Thing>)
    ensures Distinct(r)
  {
    Dedup(AllThings(st, packet, PlansIn(st, caseId, packet)))
  }

  function Assembled(st: State, packet: PacketType, plans: seq<Plan>, refs: seq<Thing>,
                     decisions: Option<seq<DecisionLine>>): Packet
    requires PlansKnown(st, plans)
  {
    var entries := EntriesOf(st, packet, refs, plans);
    var cited := Views(st, packet, refs, Sorted(CitedByAll(st, entries)));
    Packet(packet, entries, cited, Sorted(SourcesOf(st, cited)),
           if packet == Production then LogOf(AllLines(st, entries)) else [], decisions,
           CountOf(plans, Included), CountOf(plans, ExcludedEntry), CountOf(plans, WithheldEntry))
  }

  function PacketOf(st: State, caseId: Id, packet: PacketType): Packet
  {
    PlansInKnown(st, caseId, packet);
    Assembled(st, packet, PlansIn(st, caseId, packet), RefsIn(st, caseId, packet), DecisionsFor(st, caseId, packet))
  }
}
