// From the stored artifact back to the doctrine: whatever ran between snapshot
// and commit, a stored production packet discloses all it must.

module StoredProduction {
  import opened Basics
  import opened Domain
  import opened Evidence
  import opened Soundness
  import opened Runs
  import opened Packets
  import opened PacketBuilder
  import opened Production
  import P = PacketGeneration
  import Steps

  lemma TurnKeepsClean(sys: P.System, e: P.Event, next: P.System)
    requires P.Turn(sys, e, next) && ApprovalsClean(sys.st)
    ensures ApprovalsClean(next.st)
  {
    hide Next, P.BeginAnswer, P.CommitAnswer, P.SnapshotJob, CleanRevision, Steps.Withdrawn;
    if e.Operate? { NextKeepsClean(sys.st, e.req, next.st); }
  }

  lemma {:induction false} EverySystemIsClean(systems: seq<P.System>, events: seq<P.Event>, n: nat)
    requires P.Generation(systems, events) && ApprovalsClean(systems[0].st) && n < |systems|
    ensures ApprovalsClean(systems[n].st)
  {
    hide P.SystemValid, P.Turn, ApprovalsClean;
    if n > 0 {
      EverySystemIsClean(systems, events, n - 1);
      assert P.Turn(systems[n - 1], events[n - 1], systems[n]);
      TurnKeepsClean(systems[n - 1], events[n - 1], systems[n]);
    }
  }

  // The conflicts an entry discloses.
  function Disclosed(entry: Entry): (r: seq<Id>)
    ensures |r| == |entry.disclosures| && forall i :: 0 <= i < |r| ==> r[i] == entry.disclosures[i].conflict
  {
    seq(|entry.disclosures|, i requires 0 <= i < |entry.disclosures| => entry.disclosures[i].conflict)
  }

  lemma {:induction false} EntryAt(st: State, packet: PacketType, refs: seq<Thing>, plans: seq<Plan>, i: nat)
    requires PlansKnown(st, plans) && i < |plans| && PlanKnown(st, plans[i])
    ensures EntriesOf(st, packet, refs, plans)[i] == EntryOf(st, packet, refs, plans[i], CountOf(plans[..i], ExcludedEntry))
  {
    hide EntryOf;
    var m := |plans| - 1;
    if i < m {
      KnownPrefix(st, plans, m);
      assert PlanKnown(st, plans[..m][i]);
      EntryAt(st, packet, refs, plans[..m], i);
      assert plans[..m][..i] == plans[..i];
    }
  }

  // An entry of the packet is the entry of one section's plan.
  lemma EntryOfPacket(st: State, k: Id, packet: PacketType, i: nat) returns (s: Id)
    requires i < |PacketOf(st, k, packet).entries|
    ensures s in st.sections && var plan, entry := PlanOf(st, packet, s), PacketOf(st, k, packet).entries[i];
      entry.section == s && entry.disposition == plan.disposition && Disclosed(entry) == plan.disclosed
  {
    hide PlanOf, AllThings, CountOf, Views, AllLines, SourcesOf, Dedup, SectionsInOrder;
    PlansInKnown(st, k, packet);
    SectionsListed(st, k);
    var plans := PlansIn(st, k, packet);
    s := SectionsInOrder(st, k)[i];
    assert s in SectionsInOrder(st, k);
    PlansAreWell(st, packet, s);
    EntryAt(st, packet, RefsIn(st, k, packet), plans, i);
  }

  // Every included entry of every stored production packet is of a section whose
  // approval stood at the commit, rests on an eligible closure, and discloses
  // once each every preserved conflict of it that has a showable party.
  lemma StoredProductionIsComplete(systems: seq<P.System>, events: seq<P.Event>, n: nat, i: nat)
    requires P.Generation(systems, events) && ApprovalsClean(systems[0].st) && n < |events| && events[n].Commit?
    requires P.AnswerTo(systems[n], events[n]).Stored?
    requires var a := P.AnswerTo(systems[n], events[n]).artifact;
      a.packet == Production && i < |a.manifest.entries| && a.manifest.entries[i].disposition == Included
    ensures var st, entry := systems[n].st, P.AnswerTo(systems[n], events[n]).artifact.manifest.entries[i];
      && entry.section in st.sections && st.sections[entry.section].approvalCurrent
      && var evidence := EvidenceOf(st.conflicts, st.sections[entry.section].snapshot.cites);
      && (forall c :: c in evidence ==> c in st.claims && (!Withheld(st, c) ==> st.claims[c].eligibility == Eligible))
      && AllDisclosed(st, evidence, Disclosed(entry)) && Distinct(Disclosed(entry))
      && (forall f :: f in Disclosed(entry) ==>
            && f in st.conflicts && st.conflicts[f].status == PreservedBoth
            && st.conflicts[f].a in evidence && st.conflicts[f].b in evidence)
  {
    hide P.SystemValid, P.Turn, PacketOf, PlanOf, P.CommitAnswer, ApprovalsClean, Valid, AllDisclosed, EvidenceOf;
    P.StoredPacketIsCurrent(systems, events, n);
    P.EverySystemIsValid(systems, events, n);
    EverySystemIsClean(systems, events, n);
    P.SystemIsValid(systems[n]);
    var st, k := systems[n].st, systems[n].jobs[events[n].job].caseId;
    var s := EntryOfPacket(st, k, Production, i);
    ProductionFollowsApproval(st, s);
    DisclosureIsComplete(st, s);
  }
}
