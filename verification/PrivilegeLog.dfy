// Nothing is withheld without a line in the privilege log, in any reachable
// state and in any stored production packet.

module PrivilegeLogs {
  import opened Basics
  import opened Evidence
  import opened Soundness
  import opened Runs
  import opened Packets
  import opened Production
  import opened References
  import P = PacketGeneration
  import StoredProduction

  // Only a withheld entry's section is ever numbered.
  lemma {:induction false} NumberedSectionIsWithheld(st: State, plans: seq<Plan>, s: Id) returns (i: nat)
    requires WithheldSection(s) in AllThings(st, Packets.Production, plans)
    ensures i < |plans| && plans[i].id == s && plans[i].disposition == WithheldEntry
  {
    i := |plans| - 1;
    if WithheldSection(s) in PlanThings(st, Packets.Production, plans[i]) {
      DisclosedThingsAreClaims(st, plans[i].disclosed);
    } else {
      i := NumberedSectionIsWithheld(st, plans[..i], s);
    }
  }

  lemma {:induction false} DisclosedThingsAreClaims(st: State, disclosed: seq<Id>)
    ensures forall t :: t in DisclosureThings(st, disclosed) ==> t.WithheldClaim?
  {
    if disclosed != [] { DisclosedThingsAreClaims(st, disclosed[..|disclosed| - 1]); }
  }

  // Whatever is numbered comes from at least one stored source: a withheld
  // claim from its own, a withheld section from those of its withheld citations.
  lemma NumberedStandsForSource(st: State, k: Id, t: Thing) returns (source: Id)
    requires Ready(st) && t in RefsIn(st, k, Packets.Production)
    ensures StandsFor(st, t, source)
  {
    hide PlanOf, ApprovalsClean, LinesKept, LogsLinked, CachesAgree, ApprovalsHonest;
    var plans := PlansIn(st, k, Packets.Production);
    match t
    case WithheldClaim(c) =>
      OnlyWithheldNumbered(st, plans, c);
      source := SourceOfWithheld(st, c);
    case WithheldSection(s) =>
      PlansInWell(st, k);
      var i := NumberedSectionIsWithheld(st, plans, s);
      ProductionFollowsApproval(st, s);
      var c :| c in st.sections[s].snapshot.cites && Withheld(st, c);
      source := SourceOfWithheld(st, c);
  }

  lemma SourceOfWithheld(st: State, c: Id) returns (source: Id)
    requires ClaimsRooted(st) && Withheld(st, c)
    ensures FromSource(st, c, source)
  {
    source := st.claims[c].sourceId;
  }

  // Every opaque reference printed in the artifact is in the log, under some
  // source, and every logged reference is printed.
  lemma EveryReferenceIsLogged(st: State, k: Id, n: nat)
    requires Ready(st)
    ensures var p := PacketOf(st, k, Packets.Production);
            (exists t :: Mentions(p, t, n)) <==> (exists source :: Logged(p.log, source, n))
  {
    hide Ready, Mentions, PacketOf, RefsIn, StandsFor, Logged;
    var p := PacketOf(st, k, Packets.Production);
    if t :| Mentions(p, t, n) {
      MentionsAreNumbered(st, k, t, n);
      var source := NumberedStandsForSource(st, k, t);
      LogIsExact(st, k, source, n);
    }
    if source :| Logged(p.log, source, n) { LogIsExact(st, k, source, n); }
  }

  lemma EveryReferenceOfARunIsLogged(states: seq<State>, requests: seq<Request>, m: nat, k: Id, n: nat)
    requires Run(states, requests) && ApprovalsClean(states[0]) && m < |states|
    ensures var p := PacketOf(states[m], k, Packets.Production);
            (exists t :: Mentions(p, t, n)) <==> (exists source :: Logged(p.log, source, n))
  {
    hide Run, PacketOf, ApprovalsClean, Valid, Mentions, Logged;
    EveryStateIsValid(states, requests, m);
    EveryApprovalIsClean(states, requests, m);
    EveryReferenceIsLogged(states[m], k, n);
  }

  // The manifest of a stored production packet prints no opaque reference that
  // its privilege log lacks, and logs none that it does not print.
  lemma EveryStoredReferenceIsLogged(systems: seq<P.System>, events: seq<P.Event>, m: nat, n: nat)
    requires P.Generation(systems, events) && ApprovalsClean(systems[0].st) && m < |events| && events[m].Commit?
    requires P.AnswerTo(systems[m], events[m]).Stored?
    requires P.AnswerTo(systems[m], events[m]).artifact.packet == Packets.Production
    ensures var p := P.AnswerTo(systems[m], events[m]).artifact.manifest;
            (exists t :: Mentions(p, t, n)) <==> (exists source :: Logged(p.log, source, n))
  {
    hide P.SystemValid, P.Turn, PacketOf, P.CommitAnswer, ApprovalsClean, Valid, Mentions, Logged;
    P.StoredPacketIsCurrent(systems, events, m);
    P.EverySystemIsValid(systems, events, m);
    StoredProduction.EverySystemIsClean(systems, events, m);
    P.SystemIsValid(systems[m]);
    EveryReferenceIsLogged(systems[m].st, systems[m].jobs[events[m].job].caseId, n);
  }
}
