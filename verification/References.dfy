// Opaque references and the privilege log of a production packet.

module References {
  import opened Basics
  import opened Evidence
  import opened Soundness
  import opened Packets
  import opened PacketBuilder

  // ---- Where a number appears in the artifact, and for what ----

  predicate ViewMentions(v: ClaimView, t: Thing, n: nat)
  {
    v.redacted && v.ref == Some(n) && t == WithheldClaim(v.id)
  }

  predicate DisclosureMentions(d: Disclosure, t: Thing, n: nat) { ViewMentions(d.a, t, n) || ViewMentions(d.b, t, n) }

  ghost predicate EntryMentions(entry: Entry, t: Thing, n: nat)
  {
    || (entry.artifact == WithheldRef(n) && t == WithheldSection(entry.section))
    || exists j :: 0 <= j < |entry.disclosures| && DisclosureMentions(entry.disclosures[j], t, n)
  }

  ghost predicate EntriesMention(entries: seq<Entry>, t: Thing, n: nat)
  {
    exists i :: 0 <= i < |entries| && EntryMentions(entries[i], t, n)
  }

  ghost predicate Mentions(p: Packet, t: Thing, n: nat) { EntriesMention(p.entries, t, n) }

  // Every withheld thing is numbered in advance.
  ghost predicate Covers(refs: seq<Thing>, things: seq<Thing>)
  {
    forall t :: t in things ==> t in refs
  }

  lemma ViewMentionsThing(st: State, refs: seq<Thing>, c: Id, t: Thing, n: nat)
    requires Covers(refs, ClaimThing(st, c))
    ensures ViewMentions(ViewOf(st, Production, refs, c), t, n) <==> t in ClaimThing(st, c) && RefOf(refs, t) == Some(n)
  {
    if Withheld(st, c) {
      assert WithheldClaim(c) in ClaimThing(st, c);
    }
  }

  ghost predicate ThingDisclosed(st: State, disclosed: seq<Id>, t: Thing)
  {
    exists j :: 0 <= j < |disclosed| && ThingOfConflict(st, disclosed[j], t)
  }

  lemma {:induction false} DisclosureThingsAre(st: State, disclosed: seq<Id>, t: Thing)
    ensures t in DisclosureThings(st, disclosed) <==> ThingDisclosed(st, disclosed, t)
  {
    hide ThingOfConflict;
    if disclosed != [] {
      var n := |disclosed| - 1;
      DisclosureThingsAre(st, disclosed[..n], t);
      LastThings(st, disclosed, t);
      if j :| 0 <= j < n && ThingOfConflict(st, disclosed[..n][j], t) { assert disclosed[j] == disclosed[..n][j]; }
      if j :| 0 <= j < |disclosed| && ThingOfConflict(st, disclosed[j], t) {
        if j < n { assert disclosed[..n][j] == disclosed[j]; }
      }
    }
  }

  lemma LastThings(st: State, disclosed: seq<Id>, t: Thing)
    requires disclosed != []
    ensures var n := |disclosed| - 1;
            t in DisclosureThings(st, disclosed) <==> t in DisclosureThings(st, disclosed[..n]) || ThingOfConflict(st, disclosed[n], t)
  {
  }

  predicate ThingOfConflict(st: State, f: Id, t: Thing)
  {
    f in st.conflicts && (t in ClaimThing(st, st.conflicts[f].a) || t in ClaimThing(st, st.conflicts[f].b))
  }

  lemma DisclosureMentionsThing(st: State, refs: seq<Thing>, f: Id, t: Thing, n: nat)
    requires f in st.conflicts
    requires Covers(refs, ClaimThing(st, st.conflicts[f].a)) && Covers(refs, ClaimThing(st, st.conflicts[f].b))
    ensures DisclosureMentions(DisclosureOf(st, Production, refs, f), t, n) <==>
              ThingOfConflict(st, f, t) && RefOf(refs, t) == Some(n)
  {
    ViewMentionsThing(st, refs, st.conflicts[f].a, t, n);
    ViewMentionsThing(st, refs, st.conflicts[f].b, t, n);
  }

  lemma CoversEachConflict(st: State, refs: seq<Thing>, disclosed: seq<Id>, j: nat)
    requires forall f :: f in disclosed ==> f in st.conflicts
    requires j < |disclosed| && Covers(refs, DisclosureThings(st, disclosed))
    ensures Covers(refs, ClaimThing(st, st.conflicts[disclosed[j]].a)) && Covers(refs, ClaimThing(st, st.conflicts[disclosed[j]].b))
  {
    forall t | ThingOfConflict(st, disclosed[j], t) ensures t in refs {
      DisclosureThingsAre(st, disclosed, t);
    }
    assert forall t :: t in ClaimThing(st, st.conflicts[disclosed[j]].a) ==> ThingOfConflict(st, disclosed[j], t);
    assert forall t :: t in ClaimThing(st, st.conflicts[disclosed[j]].b) ==> ThingOfConflict(st, disclosed[j], t);
  }

  lemma EntryMentionsThings(st: State, refs: seq<Thing>, plan: Plan, excluded: nat, t: Thing, n: nat)
    requires WellPlanned(st, Production, plan) && Covers(refs, PlanThings(st, Production, plan))
    ensures EntryMentions(EntryOf(st, Production, refs, plan, excluded), t, n) <==>
              t in PlanThings(st, Production, plan) && RefOf(refs, t) == Some(n)
  {
    hide DisclosureThings, ThingOfConflict, DisclosureMentions, ViewOf;
    var entry := EntryOf(st, Production, refs, plan, excluded);
    if plan.disposition == Included {
      DisclosureThingsAre(st, plan.disclosed, t);
      forall j | 0 <= j < |plan.disclosed|
        ensures DisclosureMentions(entry.disclosures[j], t, n) <==>
                  ThingOfConflict(st, plan.disclosed[j], t) && RefOf(refs, t) == Some(n)
      {
        assert plan.disclosed[j] in plan.disclosed;
        CoversEachConflict(st, refs, plan.disclosed, j);
        DisclosureMentionsThing(st, refs, plan.disclosed[j], t, n);
      }
    } else if plan.disposition == WithheldEntry {
      assert WithheldSection(plan.id) in PlanThings(st, Production, plan);
    }
  }

  ghost predicate AllWellPlanned(st: State, plans: seq<Plan>)
  {
    forall i :: 0 <= i < |plans| ==> WellPlanned(st, Production, plans[i])
  }

  lemma {:induction false} EntriesMentionThings(st: State, refs: seq<Thing>, plans: seq<Plan>, t: Thing, n: nat)
    requires AllWellPlanned(st, plans) && PlansKnown(st, plans) && Covers(refs, AllThings(st, Production, plans))
    ensures EntriesMention(EntriesOf(st, Production, refs, plans), t, n) <==>
              t in AllThings(st, Production, plans) && RefOf(refs, t) == Some(n)
  {
    hide EntryMentions, PlanThings, WellPlanned, EntryOf;
    if plans != [] {
      var m := |plans| - 1;
      var front := plans[..m];
      KnownPrefix(st, plans, m);
      assert PlanKnown(st, plans[m]);
      EntriesMentionThings(st, refs, front, t, n);
      assert Covers(refs, PlanThings(st, Production, plans[m]));
      EntryMentionsThings(st, refs, plans[m], CountOf(front, ExcludedEntry), t, n);
      MentionsSnoc(EntriesOf(st, Production, refs, front), EntryOf(st, Production, refs, plans[m], CountOf(front, ExcludedEntry)), t, n);
    }
  }

  lemma MentionsSnoc(entries: seq<Entry>, entry: Entry, t: Thing, n: nat)
    ensures EntriesMention(entries + [entry], t, n) <==> EntriesMention(entries, t, n) || EntryMentions(entry, t, n)
  {
    var longer := entries + [entry];
    if EntriesMention(entries, t, n) {
      var i :| 0 <= i < |entries| && EntryMentions(entries[i], t, n);
      assert EntryMentions(longer[i], t, n);
    }
    if EntryMentions(entry, t, n) { assert EntryMentions(longer[|entries|], t, n); }
  }

  lemma PlansInWell(st: State, k: Id)
    ensures AllWellPlanned(st, PlansIn(st, k, Production)) && PlansKnown(st, PlansIn(st, k, Production))
    ensures forall i :: 0 <= i < |PlansIn(st, k, Production)| ==>
              var plan := PlansIn(st, k, Production)[i]; plan.id in st.sections && plan == PlanOf(st, Production, plan.id)
  {
    hide PlanOf, WellPlanned;
    SectionsListed(st, k);
    PlansInKnown(st, k, Production);
    var ids, plans := SectionsInOrder(st, k), PlansIn(st, k, Production);
    forall i | 0 <= i < |plans|
      ensures WellPlanned(st, Production, plans[i]) && plans[i].id in st.sections && plans[i] == PlanOf(st, Production, plans[i].id)
    {
      assert ids[i] in ids;
      PlansAreWell(st, Production, ids[i]);
    }
  }

  // A number appears in the artifact for a thing exactly when it is that
  // thing's place in the list of withheld things.
  lemma MentionsAreNumbered(st: State, k: Id, t: Thing, n: nat)
    ensures Mentions(PacketOf(st, k, Production), t, n) <==>
              t in RefsIn(st, k, Production) && n == IndexOf(RefsIn(st, k, Production), t) + 1
  {
    hide EntriesMention, Dedup, EntriesOf, AllWellPlanned, PlansKnown, PlansIn, AllThings, Views, AllLines, SourcesOf;
    PlansInWell(st, k);
    EntriesMentionThings(st, RefsIn(st, k, Production), PlansIn(st, k, Production), t, n);
  }

  // Opaque references are stable and injective: wherever it recurs, one withheld
  // thing has one number, and no number stands for two. They run from 1 on.
  lemma ReferencesIdentify(st: State, k: Id, t1: Thing, n1: nat, t2: Thing, n2: nat)
    requires Mentions(PacketOf(st, k, Production), t1, n1) && Mentions(PacketOf(st, k, Production), t2, n2)
    ensures t1 == t2 <==> n1 == n2
    ensures 1 <= n1 <= |RefsIn(st, k, Production)|
  {
    hide Mentions, PacketOf;
    MentionsAreNumbered(st, k, t1, n1);
    MentionsAreNumbered(st, k, t2, n2);
  }

  lemma NoNumberIsSkipped(st: State, k: Id, n: nat)
    requires 1 <= n <= |RefsIn(st, k, Production)|
    ensures Mentions(PacketOf(st, k, Production), RefsIn(st, k, Production)[n - 1], n)
  {
    hide Mentions, PacketOf;
    var refs := RefsIn(st, k, Production);
    assert Distinct(refs);
    MentionsAreNumbered(st, k, refs[n - 1], n);
    assert refs[n - 1] in refs && IndexOf(refs, refs[n - 1]) == n - 1;
  }

  // ---- The privilege log ----

  // The stored sources a withheld thing comes from.
  ghost predicate StandsFor(st: State, t: Thing, source: Id)
  {
    match t
    case WithheldClaim(c) => FromSource(st, c, source)
    case WithheldSection(s) =>
      s in st.sections && exists c :: c in PlanOf(st, Production, s).snapshot.cites && Withheld(st, c) && FromSource(st, c, source)
  }

  predicate FromSource(st: State, c: Id, source: Id)
  {
    c in st.claims && st.claims[c].sourceId == source && source in st.sources
  }

  ghost predicate Logged(log: seq<LogEntry>, source: Id, n: nat)
  {
    exists i :: 0 <= i < |log| && log[i].source == source && n in log[i].refs
  }

  lemma {:induction false} WithheldLinesAre(st: State, cites: seq<Id>, ref: nat, line: LogLine)
    ensures line in WithheldLines(st, cites, ref) <==>
              line.1 == ref && exists c :: c in cites && Withheld(st, c) && FromSource(st, c, line.0)
  {
    if cites != [] {
      var m := |cites| - 1;
      WithheldLinesAre(st, cites[..m], ref, line);
      assert cites == cites[..m] + [cites[m]];
    }
  }

  lemma ViewLineIs(st: State, v: ClaimView, line: LogLine)
    ensures line in ViewLine(st, v) <==> ViewMentions(v, WithheldClaim(v.id), line.1) && FromSource(st, v.id, line.0)
  {
  }

  lemma {:induction false} DisclosureLinesAre(st: State, ds: seq<Disclosure>, line: LogLine)
    ensures line in DisclosureLines(st, ds) <==>
              exists j :: 0 <= j < |ds| && (line in ViewLine(st, ds[j].a) || line in ViewLine(st, ds[j].b))
  {
    hide ViewLine;
    if ds != [] {
      var m := |ds| - 1;
      DisclosureLinesAre(st, ds[..m], line);
      if line in DisclosureLines(st, ds[..m]) {
        var j :| 0 <= j < m && (line in ViewLine(st, ds[..m][j].a) || line in ViewLine(st, ds[..m][j].b));
        assert line in ViewLine(st, ds[j].a) || line in ViewLine(st, ds[j].b);
      }
      if j :| 0 <= j < |ds| && (line in ViewLine(st, ds[j].a) || line in ViewLine(st, ds[j].b)) {
        if j < m { assert ds[..m][j] == ds[j]; }
      }
    }
  }

  // One entry's log lines are its mentions, each under what it stands for.
  lemma EntryLinesAre(st: State, refs: seq<Thing>, s: Id, excluded: nat, line: LogLine)
    requires s in st.sections && WellPlanned(st, Production, PlanOf(st, Production, s))
    requires PlanOf(st, Production, s).id == s
    ensures var entry := EntryOf(st, Production, refs, PlanOf(st, Production, s), excluded);
            line in EntryLines(st, entry) <==> EntryStands(st, entry, line)
  {
    hide PlanOf, ViewLine, ViewMentions, FromSource;
    var plan := PlanOf(st, Production, s);
    var entry := EntryOf(st, Production, refs, plan, excluded);
    DisclosureLinesAre(st, entry.disclosures, line);
    forall j | 0 <= j < |entry.disclosures|
      ensures (line in ViewLine(st, entry.disclosures[j].a) || line in ViewLine(st, entry.disclosures[j].b))
              <==> DisclosureStands(st, entry.disclosures[j], line)
    {
      ViewLineIs(st, entry.disclosures[j].a, line);
      ViewLineIs(st, entry.disclosures[j].b, line);
    }
    if plan.disposition == WithheldEntry {
      WithheldLinesAre(st, plan.snapshot.cites, entry.artifact.number, line);
    }
  }

  predicate DisclosureStands(st: State, d: Disclosure, line: LogLine)
  {
    || (ViewMentions(d.a, WithheldClaim(d.a.id), line.1) && FromSource(st, d.a.id, line.0))
    || (ViewMentions(d.b, WithheldClaim(d.b.id), line.1) && FromSource(st, d.b.id, line.0))
  }

  ghost predicate EntryStands(st: State, entry: Entry, line: LogLine)
  {
    || (entry.artifact == WithheldRef(line.1) && StandsFor(st, WithheldSection(entry.section), line.0))
    || exists j :: 0 <= j < |entry.disclosures| && DisclosureStands(st, entry.disclosures[j], line)
  }

  lemma StandsIsMention(st: State, entry: Entry, line: LogLine)
    ensures EntryStands(st, entry, line) <==> exists t :: EntryMentions(entry, t, line.1) && StandsFor(st, t, line.0)
  {
    hide PlanOf, FromSource;
    if EntryStands(st, entry, line) {
      if entry.artifact == WithheldRef(line.1) && StandsFor(st, WithheldSection(entry.section), line.0) {
        assert EntryMentions(entry, WithheldSection(entry.section), line.1);
      } else {
        var j :| 0 <= j < |entry.disclosures| && DisclosureStands(st, entry.disclosures[j], line);
        var d := entry.disclosures[j];
        var c := if ViewMentions(d.a, WithheldClaim(d.a.id), line.1) && FromSource(st, d.a.id, line.0) then d.a.id else d.b.id;
        assert DisclosureMentions(d, WithheldClaim(c), line.1);
        assert EntryMentions(entry, WithheldClaim(c), line.1);
      }
    }
    if t :| EntryMentions(entry, t, line.1) && StandsFor(st, t, line.0) {
      if !(entry.artifact == WithheldRef(line.1) && t == WithheldSection(entry.section)) {
        var j :| 0 <= j < |entry.disclosures| && DisclosureMentions(entry.disclosures[j], t, line.1);
        assert DisclosureStands(st, entry.disclosures[j], line);
      }
    }
  }

  lemma {:induction false} LinesAre(st: State, refs: seq<Thing>, plans: seq<Plan>, line: LogLine)
    requires AllWellPlanned(st, plans) && PlansKnown(st, plans)
    requires forall i :: 0 <= i < |plans| ==> plans[i].id in st.sections && plans[i] == PlanOf(st, Production, plans[i].id)
    ensures line in AllLines(st, EntriesOf(st, Production, refs, plans)) <==>
              exists i :: 0 <= i < |plans| && EntryStands(st, EntriesOf(st, Production, refs, plans)[i], line)
  {
    hide PlanOf, EntryLines, EntryStands, WellPlanned, EntryOf;
    if plans != [] {
      var m := |plans| - 1;
      KnownPrefix(st, plans, m);
      assert PlanKnown(st, plans[m]) && WellPlanned(st, Production, plans[m]);
      LinesAre(st, refs, plans[..m], line);
      var entries, front := EntriesOf(st, Production, refs, plans), EntriesOf(st, Production, refs, plans[..m]);
      assert entries[..m] == front;
      EntryLinesAre(st, refs, plans[m].id, CountOf(plans[..m], ExcludedEntry), line);
      if i :| 0 <= i < |plans| && EntryStands(st, entries[i], line) {
        if i < m { assert front[i] == entries[i]; }
      }
      if i :| 0 <= i < m && EntryStands(st, front[i], line) { assert front[i] == entries[i]; }
      assert EntryStands(st, entries[m], line) ==> exists i :: 0 <= i < |plans| && EntryStands(st, entries[i], line);
    }
  }

  lemma {:induction false} RefsForAre(lines: seq<LogLine>, source: Id)
    ensures Distinct(RefsFor(lines, source))
    ensures forall n: nat :: n in RefsFor(lines, source) <==> (source, n) in lines
  {
    if lines != [] {
      var m := |lines| - 1;
      RefsForAre(lines[..m], source);
      assert lines == lines[..m] + [lines[m]];
    }
  }

  lemma LogHoldsLines(lines: seq<LogLine>, source: Id, n: nat)
    ensures Logged(LogOf(lines), source, n) <==> (source, n) in lines
  {
    RefsForAre(lines, source);
    var sources := Dedup(LineSources(lines));
    if (source, n) in lines {
      var i := IndexOf(lines, (source, n));
      assert LineSources(lines)[i] in LineSources(lines);
      var j := IndexOf(sources, source);
      assert LogOf(lines)[j].source == source;
    }
  }

  // The log lists a reference under a source exactly when the reference is in
  // the artifact for something that comes from that source.
  lemma LogIsExact(st: State, k: Id, source: Id, n: nat)
    ensures Logged(PacketOf(st, k, Production).log, source, n) <==>
              exists t :: Mentions(PacketOf(st, k, Production), t, n) && StandsFor(st, t, source)
  {
    hide Dedup, EntriesOf, AllWellPlanned, PlansKnown, PlansIn, AllThings, Views, AllLines, SourcesOf, LogOf,
         StandsFor, EntryMentions, EntryStands, PlanOf;
    PlansInWell(st, k);
    var plans, refs := PlansIn(st, k, Production), RefsIn(st, k, Production);
    var entries := EntriesOf(st, Production, refs, plans);
    LinesAre(st, refs, plans, (source, n));
    LogHoldsLines(AllLines(st, entries), source, n);
    forall i | 0 <= i < |entries|
      ensures EntryStands(st, entries[i], (source, n)) <==> exists t :: EntryMentions(entries[i], t, n) && StandsFor(st, t, source)
    {
      StandsIsMention(st, entries[i], (source, n));
    }
    assert PacketOf(st, k, Production).entries == entries;
    MentionSomewhere(st, entries, source, n);
  }

  lemma MentionSomewhere(st: State, entries: seq<Entry>, source: Id, n: nat)
    ensures (exists t :: EntriesMention(entries, t, n) && StandsFor(st, t, source)) <==>
              exists i :: 0 <= i < |entries| && exists t :: EntryMentions(entries[i], t, n) && StandsFor(st, t, source)
  {
    hide StandsFor, EntryMentions;
    if t :| EntriesMention(entries, t, n) && StandsFor(st, t, source) {
      var i :| 0 <= i < |entries| && EntryMentions(entries[i], t, n);
    }
  }

  // The log has one line per document and lists no reference twice on it.
  lemma LogRepeatsNothing(st: State, k: Id)
    ensures var log := PacketOf(st, k, Production).log;
      && (forall i, j :: 0 <= i < j < |log| ==> log[i].source != log[j].source)
      && (forall i :: 0 <= i < |log| ==> Distinct(log[i].refs))
  {
    hide EntriesOf, PlansIn, AllThings, Views, AllLines, SourcesOf, LineSources, RefsFor;
    PlansInWell(st, k);
    var lines := AllLines(st, EntriesOf(st, Production, RefsIn(st, k, Production), PlansIn(st, k, Production)));
    forall i | 0 <= i < |LogOf(lines)| ensures Distinct(LogOf(lines)[i].refs) {
      RefsForAre(lines, LogOf(lines)[i].source);
    }
  }

  // ---- The appendices ----

  lemma {:induction false} CitedAreShown(st: State, k: Id, entries: seq<Entry>, refs: seq<Thing>, c: Id)
    requires forall i :: 0 <= i < |entries| ==> EntrySafe(st, Production, refs, entries[i])
    ensures c in CitedByAll(st, entries) ==> !Withheld(st, c)
  {
    hide EntrySafe, CitedBy, Withheld;
    if entries != [] {
      var m := |entries| - 1;
      CitedAreShown(st, k, entries[..m], refs, c);
      assert EntrySafe(st, Production, refs, entries[m]);
      if c in CitedBy(st, entries[m]) { CitedByIsShown(st, entries[m], refs, c); }
    }
  }

  lemma CitedByIsShown(st: State, entry: Entry, refs: seq<Thing>, c: Id)
    requires EntrySafe(st, Production, refs, entry) && c in CitedBy(st, entry)
    ensures !Withheld(st, c)
  {
    if c in ShownEnds(entry.disclosures) { ShownEndIsView(entry.disclosures, st, refs, c); }
  }

  lemma {:induction false} ShownEndIsView(ds: seq<Disclosure>, st: State, refs: seq<Thing>, c: Id)
    requires forall i :: 0 <= i < |ds| ==> DisclosureSafe(st, Production, refs, ds[i])
    requires c in ShownEnds(ds)
    ensures !Withheld(st, c)
  {
    var m := |ds| - 1;
    assert DisclosureSafe(st, Production, refs, ds[m]);
    if c in ShownEnds(ds[..m]) { ShownEndIsView(ds[..m], st, refs, c); }
  }

  lemma {:induction false} SourcesOfShown(st: State, shown: seq<ClaimView>, source: Id)
    requires source in SourcesOf(st, shown)
    ensures source in st.sources && exists i :: 0 <= i < |shown| && !shown[i].redacted && FromSource(st, shown[i].id, source)
  {
    var m := |shown| - 1;
    if source in SourcesOf(st, shown[..m]) {
      SourcesOfShown(st, shown[..m], source);
      var i :| 0 <= i < m && !shown[..m][i].redacted && FromSource(st, shown[..m][i].id, source);
      assert shown[i] == shown[..m][i];
    } else {
      assert FromSource(st, shown[m].id, source);
    }
  }

  // No withheld claim reaches appendix A, no privileged document appendix B,
  // and every logged document is privileged: none is both described and logged.
  lemma NothingWithheldIsCited(st: State, k: Id)
    requires ClaimsRooted(st)
    ensures var p := PacketOf(st, k, Production);
      && (forall i :: 0 <= i < |p.cited| ==> !p.cited[i].redacted && !Withheld(st, p.cited[i].id))
      && (forall s :: s in p.citedSources ==> s in st.sources && !st.sources[s].privilege.Withholding())
      && (forall s, n: nat :: Logged(p.log, s, n) ==> s in st.sources && st.sources[s].privilege.Withholding())
  {
    hide EntriesOf, PlansIn, AllThings, AllLines, LogOf, CitedByAll, EntrySafe, Dedup, PlanOf, SourcesOf;
    PlansInKnown(st, k, Production);
    AllEntriesSafe(st, k, Production);
    var p := PacketOf(st, k, Production);
    var refs := RefsIn(st, k, Production);
    assert p.entries == EntriesOf(st, Production, refs, PlansIn(st, k, Production));
    var ids := CitedByAll(st, p.entries);
    SortedFacts(ids);
    forall i | 0 <= i < |p.cited| ensures !p.cited[i].redacted && !Withheld(st, p.cited[i].id) {
      assert Sorted(ids)[i] in Sorted(ids);
      CitedAreShown(st, k, p.entries, refs, Sorted(ids)[i]);
    }
    SortedFacts(SourcesOf(st, p.cited));
    forall s | s in p.citedSources ensures s in st.sources && !st.sources[s].privilege.Withholding() {
      SourcesOfShown(st, p.cited, s);
    }
    forall s, n: nat | Logged(p.log, s, n) ensures s in st.sources && st.sources[s].privilege.Withholding() {
      LoggedIsPrivileged(st, k, s, n);
    }
  }

  lemma LoggedIsPrivileged(st: State, k: Id, source: Id, n: nat)
    requires ClaimsRooted(st) && Logged(PacketOf(st, k, Production).log, source, n)
    ensures source in st.sources && st.sources[source].privilege.Withholding()
  {
    hide PacketOf, PlanOf, EntryMentions, Mentions;
    LogIsExact(st, k, source, n);
    var t :| Mentions(PacketOf(st, k, Production), t, n) && StandsFor(st, t, source);
    if t.WithheldClaim? {
      MentionsAreNumbered(st, k, t, n);
      OnlyWithheldNumbered(st, PlansIn(st, k, Production), t.claim);
    }
  }

  lemma {:induction false} OnlyWithheldNumbered(st: State, plans: seq<Plan>, c: Id)
    ensures WithheldClaim(c) in AllThings(st, Production, plans) ==> Withheld(st, c)
  {
    if plans != [] {
      OnlyWithheldNumbered(st, plans[..|plans| - 1], c);
      OnlyWithheldDisclosed(st, plans[|plans| - 1].disclosed, c);
    }
  }

  lemma {:induction false} OnlyWithheldDisclosed(st: State, disclosed: seq<Id>, c: Id)
    ensures WithheldClaim(c) in DisclosureThings(st, disclosed) ==> Withheld(st, c)
  {
    if disclosed != [] {
      OnlyWithheldDisclosed(st, disclosed[..|disclosed| - 1], c);
    }
  }
}
