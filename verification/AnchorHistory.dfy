// Checkpoint comparison accepts exactly the append-only continuations of an
// anchored history.

module AnchorHistory {
  import opened Basics
  import opened Chains
  import opened Evidence
  import opened Lineage
  import opened Soundness
  import opened Preservation
  import opened Runs
  import opened PacketGeneration
  import Steps
  import opened Anchors

  ghost predicate SubTable(a: map<Id, string>, b: map<Id, string>)
  {
    forall x :: x in a ==> x in b && a[x] == b[x]
  }

  // What appending alone can do to one chain.
  ghost predicate ChainExtends(name: ChainName, past: History, now: History)
  {
    match name
    case AuditChain => past.audit <= now.audit
    case PacketChain => past.packets <= now.packets
    case SectionChain => Elements(past.revisions) <= Elements(now.revisions)
    case DecisionChain => past.decisions <= now.decisions
    case ExtractionChain =>
      && SubTable(past.extractions.documents, now.extractions.documents)
      && SubTable(past.extractions.runs, now.extractions.runs)
      && SubTable(past.extractions.pages, now.extractions.pages)
  }

  ghost predicate Extends(past: History, now: History)
  {
    forall name :: name in CHAINS ==> ChainExtends(name, past, now)
  }

  // Every chain verifies and the member proofs are complete.
  ghost predicate Verified(h: History)
  {
    && Linked(h.audit) && Linked(h.packets) && Linked(h.decisions)
    && UniqueIds(h.revisions) && (forall s :: s in SectionIds(h.revisions) ==> SectionSound(RowsOf(h.revisions, s)))
    && Complete(h)
  }

  ghost predicate ChainAccepted(name: ChainName, now: History, past: History)
  {
    FindingFor(name, PointOf(now, name), WrittenAnchor(CheckpointOf(past))) in {Advanced, Matched}
  }

  lemma AcceptedMeans(name: ChainName, now: History, past: History)
    requires Complete(past)
    ensures ChainAccepted(name, now, past) <==>
              && CountIn(past, name) <= CountIn(now, name)
              && PrefixMatches(name, MembersOf(now, name), MembersOf(past, name))
              && (CountIn(past, name) == CountIn(now, name) ==> RootIn(now, name) == RootIn(past, name))
  {
    hide MembersOf, CountIn, RootIn, PrefixMatches;
    assert name in CHAINS;
  }

  // ---- Ordered chains ----

  lemma PrefixFromHashes<C>(a: seq<Row<C>>, b: seq<Row<C>>)
    requires Linked(a) && Linked(b) && |a| <= |b|
    requires forall i :: 0 <= i < |a| ==> a[i].hash == b[i].hash
    ensures a <= b
  {
    if a != [] {
      HashPinsPrefix(a, |a| - 1, b, |a| - 1);
      assert a[..|a| - 1 + 1] == a;
    }
  }

  lemma AuditAccepted(now: History, past: History)
    requires Linked(past.audit) && Linked(now.audit) && Complete(past)
    ensures ChainAccepted(AuditChain, now, past) <==> ChainExtends(AuditChain, past, now)
  {
    hide Linked, ChainAccepted;
    AcceptedMeans(AuditChain, now, past);
    var a, b := past.audit, now.audit;
    if |a| <= |b| && AuditMembers(b)[..|a|] == AuditMembers(a) {
      forall i | 0 <= i < |a| ensures a[i].hash == b[i].hash {
        assert AuditMembers(a)[i] == AuditMembers(b)[..|a|][i];
      }
      PrefixFromHashes(a, b);
    }
    if a <= b {
      assert forall i :: 0 <= i < |a| ==> AuditMembers(b)[..|a|][i] == AuditMembers(a)[i];
    }
  }

  lemma PacketsAccepted(now: History, past: History)
    requires Linked(past.packets) && Linked(now.packets) && Complete(past)
    ensures ChainAccepted(PacketChain, now, past) <==> ChainExtends(PacketChain, past, now)
  {
    hide Linked, ChainAccepted;
    AcceptedMeans(PacketChain, now, past);
    var a, b := past.packets, now.packets;
    if |a| <= |b| && PacketMembers(b)[..|a|] == PacketMembers(a) {
      forall i | 0 <= i < |a| ensures a[i].hash == b[i].hash {
        assert PacketMembers(a)[i] == PacketMembers(b)[..|a|][i];
      }
      PrefixFromHashes(a, b);
    }
    if a <= b {
      assert forall i :: 0 <= i < |a| ==> PacketMembers(b)[..|a|][i] == PacketMembers(a)[i];
    }
  }

  lemma DecisionsAccepted(now: History, past: History)
    requires Linked(past.decisions) && Linked(now.decisions) && Complete(past)
    ensures ChainAccepted(DecisionChain, now, past) <==> ChainExtends(DecisionChain, past, now)
  {
    hide Linked, ChainAccepted;
    AcceptedMeans(DecisionChain, now, past);
    var a, b := past.decisions, now.decisions;
    if |a| <= |b| && DecisionMembers(b)[..|a|] == DecisionMembers(a) {
      forall i | 0 <= i < |a| ensures a[i].hash == b[i].hash {
        assert DecisionMembers(a)[i] == DecisionMembers(b)[..|a|][i];
      }
      PrefixFromHashes(a, b);
    }
    if a <= b {
      assert forall i :: 0 <= i < |a| ==> DecisionMembers(b)[..|a|][i] == DecisionMembers(a)[i];
    }
  }

  // ---- Set chains: looking members up ----

  ghost predicate UniqueKeys(xs: seq<Member>)
  {
    && (forall m :: m in xs ==> m.Object())
    && forall i, j :: 0 <= i < j < |xs| ==> xs[i].MemberKind() != xs[j].MemberKind() || xs[i].MemberId() != xs[j].MemberId()
  }

  lemma {:induction false} ByMemberFinds(xs: seq<Member>, m: Member)
    requires UniqueKeys(xs)
    ensures ByMember(xs, m) == Some(m) <==> m in xs
    ensures ByMember(xs, m).Some? ==> ByMember(xs, m).value in xs
  {
    if xs != [] {
      var n := |xs| - 1;
      ByMemberFinds(xs[..n], m);
      assert xs == xs[..n] + [xs[n]];
      assert xs[n] in xs;
      if m in xs[..n] {
        var i := IndexOf(xs[..n], m);
        assert xs[i] == m;
      }
    }
  }

  lemma {:induction false} ByIdFinds(rows: seq<Revision>, m: Member)
    requires UniqueIds(rows)
    ensures ById(SectionMembers(rows), m) == Some(m) <==> m in SectionMembers(rows)
  {
    var ms := SectionMembers(rows);
    if rows != [] {
      var n := |rows| - 1;
      assert SectionMembers(rows[..n]) == ms[..n];
      ByIdFinds(rows[..n], m);
      assert ms == ms[..n] + [ms[n]];
      if m in ms[..n] {
        var i := IndexOf(ms[..n], m);
        assert ms[i] == MemberOf(rows[i]) == m;
      }
    }
  }

  // ---- Sections ----

  // The hash in a member fixes the whole row.
  lemma MemberFixesRow(r: Revision, s: Revision, rows: seq<Revision>, others: seq<Revision>)
    requires RowSound(rows, r) && RowSound(others, s) && MemberOf(r) == MemberOf(s)
    ensures r == s
  {
  }

  lemma RowOfVerified(h: History, r: Revision) returns (rows: seq<Revision>)
    requires Verified(h) && r in h.revisions
    ensures RowSound(rows, r)
  {
    hide RowSound, Complete, Linked, OneRoot;
    rows := RowsOf(h.revisions, r.content.sectionId);
    assert r.content.sectionId in SectionIds(h.revisions);
    assert r in rows;
  }

  lemma RevisionsCovered(now: History, past: History)
    requires Verified(now) && Verified(past)
    ensures PrefixMatches(SectionChain, SectionMembers(now.revisions), SectionMembers(past.revisions))
            <==> Elements(past.revisions) <= Elements(now.revisions)
  {
    hide RowSound, Complete, Linked, SectionSound, Verified, ById, UniqueIds;
    assert UniqueIds(now.revisions) by { VerifiedIds(now); }
    var a, b := past.revisions, now.revisions;
    var ma, mb := SectionMembers(a), SectionMembers(b);
    if PrefixMatches(SectionChain, mb, ma) {
      forall r | r in a ensures r in b {
        var i := IndexOf(a, r);
        assert ma[i] in ma && Covered(SectionChain, mb, ma[i]);
        ByIdFinds(b, ma[i]);
        var j := IndexOf(mb, ma[i]);
        var rows := RowOfVerified(past, r);
        var others := RowOfVerified(now, b[j]);
        MemberFixesRow(r, b[j], rows, others);
      }
    }
    if Elements(a) <= Elements(b) {
      forall m | m in ma ensures Covered(SectionChain, mb, m) {
        var i := IndexOf(ma, m);
        assert a[i] in Elements(a);
        var j := IndexOf(b, a[i]);
        assert mb[j] == m;
        ByIdFinds(b, m);
      }
    }
  }

  lemma VerifiedIds(h: History)
    requires Verified(h)
    ensures UniqueIds(h.revisions)
  {
  }

  lemma UniqueIdsDistinct(rows: seq<Revision>)
    requires UniqueIds(rows)
    ensures |Elements(rows)| == |rows|
  {
    DistinctSize(rows);
  }

  lemma TipsIgnoreOrder(a: seq<Revision>, b: seq<Revision>)
    requires Elements(a) == Elements(b)
    ensures TipsOfAll(a) == TipsOfAll(b)
  {
    SameRows(a, b);
    assert SectionIds(a) == SectionIds(b);
    forall s ensures TipsOf(RowsOf(a, s)) == TipsOf(RowsOf(b, s)) {
      SameTips(RowsOf(a, s), RowsOf(b, s));
    }
  }

  lemma SameRows(a: seq<Revision>, b: seq<Revision>)
    requires Elements(a) == Elements(b)
    ensures forall r :: r in a <==> r in b
  {
    forall r ensures r in a <==> r in b {
      assert r in a <==> r in Elements(a);
      assert r in b <==> r in Elements(b);
    }
  }

  lemma SameTips(a: seq<Revision>, b: seq<Revision>)
    requires forall r :: r in a <==> r in b
    ensures TipsOf(a) == TipsOf(b)
  {
    hide ChildOf;
  }

  lemma SectionsAccepted(now: History, past: History)
    requires Verified(now) && Verified(past)
    ensures ChainAccepted(SectionChain, now, past) <==> ChainExtends(SectionChain, past, now)
  {
    hide ChainAccepted, Linked, SectionSound, Complete, UniqueIds, PrefixMatches, TipsOfAll;
    AcceptedMeans(SectionChain, now, past);
    RevisionsCovered(now, past);
    var a, b := past.revisions, now.revisions;
    UniqueIdsDistinct(a);
    UniqueIdsDistinct(b);
    if Elements(a) <= Elements(b) {
      SubsetSize(Elements(a), Elements(b));
      if |a| == |b| { TipsIgnoreOrder(b, a); }
    }
  }

  // ---- Extractions ----

  lemma TableMember(kind: Kind, table: map<Id, string>, m: Member)
    ensures m in TableMembers(kind, table) <==>
              m.ExtractionMember? && m.kind == kind && m.id in table && table[m.id] == m.recorded
  {
    SortedFacts(table.Keys);
    var ids, ms := Sorted(table.Keys), TableMembers(kind, table);
    if m in ms { assert ms[IndexOf(ms, m)] == m; assert ids[IndexOf(ms, m)] in ids; }
    if m.ExtractionMember? && m.kind == kind && m.id in table && table[m.id] == m.recorded {
      assert m.id in ids;
      assert ms[IndexOf(ids, m.id)] == m;
    }
  }

  lemma TableKeysUnique(kind: Kind, table: map<Id, string>)
    ensures UniqueKeys(TableMembers(kind, table))
    ensures forall m :: m in TableMembers(kind, table) ==> m.MemberKind() == Some(kind)
  {
    SortedFacts(table.Keys);
    var ids, ms := Sorted(table.Keys), TableMembers(kind, table);
    forall m | m in ms ensures m.ExtractionMember? && m.kind == kind { TableMember(kind, table, m); }
    forall i, j | 0 <= i < j < |ms| ensures ms[i].MemberId() != ms[j].MemberId() {
      assert ids[i] != ids[j];
    }
  }

  lemma UniqueKeysConcat(a: seq<Member>, b: seq<Member>)
    requires UniqueKeys(a) && UniqueKeys(b)
    requires forall m, n :: m in a && n in b ==> m.MemberKind() != n.MemberKind()
    ensures UniqueKeys(a + b)
  {
    var c := a + b;
    forall i, j | 0 <= i < j < |c| ensures c[i].MemberKind() != c[j].MemberKind() || c[i].MemberId() != c[j].MemberId() {
      if i < |a| <= j { assert c[i] in a && c[j] in b; }
    }
  }

  lemma ExtractionKeysUnique(x: Extractions)
    ensures UniqueKeys(ExtractionMembers(x))
  {
    hide UniqueKeys, TableMembers;
    TableKeysUnique(DocumentKind, x.documents);
    TableKeysUnique(RunKind, x.runs);
    TableKeysUnique(PageKind, x.pages);
    var front := TableMembers(DocumentKind, x.documents) + TableMembers(RunKind, x.runs);
    UniqueKeysConcat(TableMembers(DocumentKind, x.documents), TableMembers(RunKind, x.runs));
    UniqueKeysConcat(front, TableMembers(PageKind, x.pages));
  }

  function TableOf(x: Extractions, kind: Kind): map<Id, string>
  {
    match kind case DocumentKind => x.documents case RunKind => x.runs case PageKind => x.pages
  }

  lemma ExtractionMemberIs(x: Extractions, m: Member)
    ensures m in ExtractionMembers(x) <==>
              m.ExtractionMember? && m.id in TableOf(x, m.kind) && TableOf(x, m.kind)[m.id] == m.recorded
  {
    hide TableMembers;
    TableMember(DocumentKind, x.documents, m);
    TableMember(RunKind, x.runs, m);
    TableMember(PageKind, x.pages, m);
  }

  lemma TablesCovered(now: Extractions, past: Extractions)
    ensures PrefixMatches(ExtractionChain, ExtractionMembers(now), ExtractionMembers(past)) <==>
              SubTable(past.documents, now.documents) && SubTable(past.runs, now.runs) && SubTable(past.pages, now.pages)
  {
    hide ExtractionMembers, ByMember, UniqueKeys;
    ExtractionKeysUnique(now);
    var ma, mb := ExtractionMembers(past), ExtractionMembers(now);
    forall m ensures Covered(ExtractionChain, mb, m) <==> m.Object() && m in mb { ByMemberFinds(mb, m); }
    if PrefixMatches(ExtractionChain, mb, ma) {
      forall kind, id | id in TableOf(past, kind) ensures id in TableOf(now, kind) && TableOf(now, kind)[id] == TableOf(past, kind)[id] {
        var m := ExtractionMember(kind, id, TableOf(past, kind)[id]);
        ExtractionMemberIs(past, m);
        ExtractionMemberIs(now, m);
        assert Covered(ExtractionChain, mb, m);
      }
      assert TableOf(past, DocumentKind) == past.documents && TableOf(past, RunKind) == past.runs && TableOf(past, PageKind) == past.pages;
    }
    if SubTable(past.documents, now.documents) && SubTable(past.runs, now.runs) && SubTable(past.pages, now.pages) {
      forall m | m in ma ensures Covered(ExtractionChain, mb, m) {
        ExtractionMemberIs(past, m);
        ExtractionMemberIs(now, m);
      }
    }
  }

  lemma SubTableSize(a: map<Id, string>, b: map<Id, string>)
    requires SubTable(a, b)
    ensures |a| <= |b| && (|a| == |b| ==> a == b)
  {
    SubsetSize(a.Keys, b.Keys);
    assert |a.Keys| == |a| && |b.Keys| == |b|;
    if |a| == |b| { assert forall x :: x in b ==> x in a.Keys; }
  }

  lemma CompleteDocuments(h: History)
    requires Complete(h)
    ensures |h.extractions.documents| == |h.extractions.sources|
  {
    var x := h.extractions;
    TableSize(DocumentKind, x.documents);
    TableSize(RunKind, x.runs);
    TableSize(PageKind, x.pages);
    assert ExtractionChain in CHAINS;
  }

  lemma ExtractionsAccepted(now: History, past: History)
    requires Complete(now) && Complete(past)
    ensures ChainAccepted(ExtractionChain, now, past) <==> ChainExtends(ExtractionChain, past, now)
  {
    hide ChainAccepted, Complete, PrefixMatches, ExtractionMembers, SubTable;
    AcceptedMeans(ExtractionChain, now, past);
    var a, b := past.extractions, now.extractions;
    TablesCovered(b, a);
    CompleteDocuments(now);
    CompleteDocuments(past);
    if SubTable(a.documents, b.documents) && SubTable(a.runs, b.runs) && SubTable(a.pages, b.pages) {
      SubTableSize(a.documents, b.documents);
      SubTableSize(a.runs, b.runs);
      SubTableSize(a.pages, b.pages);
    }
  }

  // ---- The characterization ----

  // Between two histories that verify, the comparison accepts exactly the
  // append-only continuations: no rewrite passes, no honest growth is refused.
  // In particular equal counts with every anchored member present already force
  // equal roots.
  lemma AcceptsExactlyContinuations(past: History, now: History)
    requires Verified(past) && Verified(now)
    ensures Accepts(CheckpointOf(now), WrittenAnchor(CheckpointOf(past))) <==> Extends(past, now)
  {
    hide ChainExtends, FindingFor, Linked, SectionSound, Complete, UniqueIds;
    forall name | name in CHAINS ensures ChainAccepted(name, now, past) <==> ChainExtends(name, past, now) {
      match name
      case AuditChain => AuditAccepted(now, past);
      case PacketChain => PacketsAccepted(now, past);
      case SectionChain => SectionsAccepted(now, past);
      case DecisionChain => DecisionsAccepted(now, past);
      case ExtractionChain => ExtractionsAccepted(now, past);
    }
    assert forall name :: name in CHAINS ==> CheckpointOf(now)[name] == PointOf(now, name);
  }

  // ---- Transitivity, for any checkpoints ----

  ghost predicate Whole(c: Checkpoint)
  {
    forall name :: name in CHAINS ==> name in c && |c[name].members| == c[name].count && c[name].mode == ModeOf(name)
  }

  lemma PrefixMatchesTransitive(name: ChainName, a: seq<Member>, b: seq<Member>, c: seq<Member>)
    requires PrefixMatches(name, b, a) && PrefixMatches(name, c, b)
    ensures PrefixMatches(name, c, a)
  {
    if ModeOf(name) == OrderedPrefix {
      assert c[..|a|] == c[..|b|][..|a|];
    } else {
      forall m | m in a ensures Covered(name, c, m) {
        assert Covered(name, b, m);
        if name == SectionChain { ByIdIn(b, m); } else { ByMemberIn(b, m); }
      }
    }
  }

  lemma {:induction false} ByIdIn(xs: seq<Member>, m: Member)
    ensures ById(xs, m).Some? ==> ById(xs, m).value in xs
  {
    if xs != [] { ByIdIn(xs[..|xs| - 1], m); }
  }

  lemma {:induction false} ByMemberIn(xs: seq<Member>, m: Member)
    ensures ByMember(xs, m).Some? ==> ByMember(xs, m).value in xs
  {
    if xs != [] { ByMemberIn(xs[..|xs| - 1], m); }
  }

  lemma ChainAcceptanceTransitive(name: ChainName, a: Checkpoint, b: Checkpoint, c: Checkpoint)
    requires name in CHAINS && Whole(a) && Whole(b) && Whole(c)
    requires FindingFor(name, b[name], WrittenAnchor(a)) in {Advanced, Matched}
    requires FindingFor(name, c[name], WrittenAnchor(b)) in {Advanced, Matched}
    ensures FindingFor(name, c[name], WrittenAnchor(a)) in {Advanced, Matched}
  {
    hide PrefixMatches;
    PrefixMatchesTransitive(name, a[name].members, b[name].members, c[name].members);
  }

  // Checking each checkpoint against the one before it is as good as checking
  // the last against the first.
  lemma AcceptanceIsTransitive(a: Checkpoint, b: Checkpoint, c: Checkpoint)
    requires Whole(a) && Whole(b) && Whole(c)
    requires Accepts(b, WrittenAnchor(a)) && Accepts(c, WrittenAnchor(b))
    ensures Accepts(c, WrittenAnchor(a))
  {
    hide FindingFor;
    forall name | name in CHAINS ensures FindingFor(name, c[name], WrittenAnchor(a)) in {Advanced, Matched} {
      ChainAcceptanceTransitive(name, a, b, c);
    }
  }

  // ---- Runs ----

  function RevisionIds(st: State, k: Id): set<Id>
  {
    set r | r in st.revisions && st.revisions[r].content.caseId == k
  }

  function RevisionList(st: State, ids: seq<Id>): (r: seq<Revision>)
    requires forall x :: x in ids ==> x in st.revisions
    ensures |r| == |ids| && forall i :: 0 <= i < |r| ==> r[i] == st.revisions[ids[i]]
  {
    seq(|ids|, i requires 0 <= i < |ids| => st.revisions[ids[i]])
  }

  function RevisionsOf(st: State, k: Id): seq<Revision>
  {
    SortedFacts(RevisionIds(st, k));
    RevisionList(st, Sorted(RevisionIds(st, k)))
  }

  // ---- The extraction tables of a matter ----

  function RunIds(st: State, k: Id): set<Id>
  {
    set r | r in st.runs && st.runs[r].caseId == k
  }

  predicate UploadedIn(st: State, k: Id, s: Id)
  {
    exists r :: r in st.runs && st.runs[r].caseId == k && st.runs[r].sourceId == s
  }

  // The documents some run of the matter was made of, by the runs alone.
  function RunSources(st: State, k: Id): (r: set<Id>)
    ensures forall s :: s in r <==> UploadedIn(st, k, s)
  {
    set x | x in RunIds(st, k) :: st.runs[x].sourceId
  }

  predicate FileKept(st: State, s: Id) { s in st.sources && st.sources[s].details.stored.Some? }

  function DocumentTable(st: State, k: Id): map<Id, string>
  {
    map s | s in RunSources(st, k) && FileKept(st, s) :: st.sources[s].details.stored.value
  }

  function ManifestTable(st: State, k: Id): map<Id, string>
  {
    map r | r in RunIds(st, k) :: st.runs[r].manifest
  }

  function PageTable(st: State, k: Id): map<Id, string>
  {
    map p | p in st.pages && st.pages[p].runId in RunIds(st, k) :: st.pages[p].textHash
  }

  function ExtractionsOf(st: State, k: Id): Extractions
  {
    Extractions(RunSources(st, k), DocumentTable(st, k), ManifestTable(st, k), PageTable(st, k))
  }

  // Every run's document is stored.
  ghost predicate FilesKept(st: State)
  {
    forall r :: r in st.runs ==> FileKept(st, st.runs[r].sourceId)
  }

  lemma EmptyKeepsFiles()
    ensures FilesKept(EMPTY)
  {
  }

  lemma FilesKeptMeans(st: State, k: Id)
    requires FilesKept(st)
    ensures ExtractionsOf(st, k).documents.Keys == ExtractionsOf(st, k).sources
  {
  }

  lemma DocumentsAmongSources(st: State, k: Id)
    ensures ExtractionsOf(st, k).documents.Keys <= ExtractionsOf(st, k).sources
  {
  }

  lemma ExtractionsOnlyGrow(one: State, two: State, k: Id)
    requires Advances(one, two)
    ensures var x, y := ExtractionsOf(one, k), ExtractionsOf(two, k);
            SubTable(x.documents, y.documents) && SubTable(x.runs, y.runs) && SubTable(x.pages, y.pages)
  {
    hide ClaimAdvances, ConflictAdvances;
    forall s | UploadedIn(one, k, s) ensures UploadedIn(two, k, s) {
      var r :| r in one.runs && one.runs[r].caseId == k && one.runs[r].sourceId == s;
      assert r in two.runs && two.runs[r] == one.runs[r];
    }
  }

  // Only an upload adds a run, and it stores the document of it.
  lemma OnlyUploadsRun(st: State, actor: Steps.Actor, k: Id, cmd: Command, now: int)
    requires FreshIds(st, k, cmd) && Refusal(st, actor, k, cmd).None? && !cmd.IngestSource?
    ensures Effect(st, actor, k, cmd, now).runs == st.runs
  {
    hide Steps.Settled, Steps.Withdrawn, NextRow, Steps.Event, Steps.FlagRefusal, Steps.DecideRefusal,
         Steps.ClaimRefusal, Steps.AttestRefusal, Steps.SnapshotRefusal, Steps.ClaimCreated, Steps.Flagged,
         Steps.Decided, ImpactOf, EvidenceDigest, Steps.RevisionOf, Steps.NextPosition;
    if cmd.FlagConflict? { FlagKeepsHistory(st, actor, k, cmd.id, cmd.conflict, now); }
    if cmd.DecideConflict? { DecideKeepsHistory(st, actor, k, cmd.ruling, now); }
  }

  lemma AdvancesKeepsFiles(st: State, next: State)
    requires FilesKept(st) && Advances(st, next) && next.runs == st.runs
    ensures FilesKept(next)
  {
    hide ClaimAdvances, ConflictAdvances;
  }

  lemma UploadKeepsFiles(st: State, actor: Steps.Actor, k: Id, id: Id, upload: Steps.Upload, now: int)
    requires FilesKept(st) && actor.Member(k) && id !in st.sources
    ensures FilesKept(Steps.SourceIngest(st, actor, k, id, upload, now))
  {
    hide Steps.Withdrawn, NextRow, Steps.Event, Steps.PagesFrom;
  }

  lemma NextKeepsFiles(st: State, req: Request, next: State)
    requires Valid(st) && Next(st, req, next) && FilesKept(st)
    ensures FilesKept(next)
  {
    hide Valid, Effect, FilesKept, Advances, ElsewhereSame;
    if Refusal(st, req.actor, req.caseId, req.cmd).None? {
      if req.cmd.IngestSource? {
        UploadEffect(st, req);
        UploadKeepsFiles(st, req.actor, req.caseId, req.cmd.id, req.cmd.upload, req.now);
      } else {
        OnlyUploadsRun(st, req.actor, req.caseId, req.cmd, req.now);
        NextIsGood(st, req, next);
        AdvancesKeepsFiles(st, next);
      }
    }
  }

  lemma UploadEffect(st: State, req: Request)
    requires FreshIds(st, req.caseId, req.cmd) && Refusal(st, req.actor, req.caseId, req.cmd).None? && req.cmd.IngestSource?
    ensures req.actor.Member(req.caseId)
    ensures Effect(st, req.actor, req.caseId, req.cmd, req.now)
            == Steps.SourceIngest(st, req.actor, req.caseId, req.cmd.id, req.cmd.upload, req.now)
  {
  }

  lemma TurnKeepsFiles(sys: System, e: Event, next: System)
    requires SystemValid(sys) && Turn(sys, e, next) && FilesKept(sys.st)
    ensures FilesKept(next.st)
  {
    hide Next, BeginAnswer, CommitAnswer, SnapshotJob, FilesKept, Advances, Valid, JobGood, ArtifactsGood;
    match e
    case Operate(req) => NextKeepsFiles(sys.st, req, next.st);
    case Commit(job, packetId) =>
      TurnAdvances(sys, e, next);
      assert next.st.runs == sys.st.runs;
      AdvancesKeepsFiles(sys.st, next.st);
    case _ =>
  }

  lemma {:induction false} EverySystemKeepsFiles(systems: seq<System>, events: seq<Event>, n: nat)
    requires Generation(systems, events) && FilesKept(systems[0].st) && n < |systems|
    ensures FilesKept(systems[n].st)
  {
    hide SystemValid, Turn, FilesKept;
    if n > 0 {
      EverySystemKeepsFiles(systems, events, n - 1);
      EverySystemIsValid(systems, events, n - 1);
      assert Turn(systems[n - 1], events[n - 1], systems[n]);
      TurnKeepsFiles(systems[n - 1], events[n - 1], systems[n]);
    }
  }

  function HistoryOf(sys: System, k: Id): History
  {
    History(sys.st.AuditOf(k), sys.ArtifactsOf(k), RevisionsOf(sys.st, k), sys.st.DecisionsOf(k), ExtractionsOf(sys.st, k))
  }

  lemma RevisionsOfAre(st: State, k: Id, row: Revision)
    ensures row in RevisionsOf(st, k) <==> exists r :: r in RevisionIds(st, k) && st.revisions[r] == row
  {
    SortedFacts(RevisionIds(st, k));
    var ids, rows := Sorted(RevisionIds(st, k)), RevisionsOf(st, k);
    if row in rows { assert ids[IndexOf(rows, row)] in ids; }
    if r :| r in RevisionIds(st, k) && st.revisions[r] == row {
      assert r in ids;
      assert rows[IndexOf(ids, r)] == row;
    }
  }

  lemma RevisionsOfUnique(st: State, k: Id)
    requires LinesKept(st)
    ensures UniqueIds(RevisionsOf(st, k))
  {
    hide LineFor;
    SortedFacts(RevisionIds(st, k));
    var ids, rows := Sorted(RevisionIds(st, k)), RevisionsOf(st, k);
    forall i, j | 0 <= i < j < |rows| ensures rows[i].id != rows[j].id {
      assert ids[i] in ids && ids[j] in ids && ids[i] != ids[j];
    }
  }

  lemma SectionOfRunSound(st: State, k: Id, s: Id)
    requires LinesKept(st) && s in SectionIds(RevisionsOf(st, k))
    ensures SectionSound(RowsOf(RevisionsOf(st, k), s))
  {
    hide Line, UniqueIds, SectionSound, RevisionsOf;
    var rows := RowsOf(RevisionsOf(st, k), s);
    var row :| row in RevisionsOf(st, k) && row.content.sectionId == s;
    RevisionsOfAre(st, k, row);
    var path: seq<Revision> :| LineFor(st.revisions, s, st.sections[s], path);
    forall x ensures x in path <==> x in rows {
      RevisionsOfAre(st, k, x);
      if x in path {
        var i := IndexOf(path, x);
        assert path[i].id in RevisionIds(st, k) by { assert row in path; assert row == path[IndexOf(path, row)]; }
      }
    }
    assert Elements(path) == Elements(rows);
    OneLineIsSound(rows, path);
  }

  // In a reachable system every chain verifies, exactly while no document of the
  // matter is missing.
  lemma ReachableHistoryVerifies(sys: System, k: Id)
    requires SystemValid(sys)
    ensures Verified(HistoryOf(sys, k)) <==> ExtractionsOf(sys.st, k).documents.Keys == ExtractionsOf(sys.st, k).sources
  {
    hide JobGood, Bound, KeysUnique, SectionSound, Complete, UniqueIds, LineFor, RevisionsOf, CachesAgree,
         ApprovalsHonest, ExtractionsOf;
    assert ArtifactsGood(sys, k);
    DocumentsAmongSources(sys.st, k);
    CompleteIffNoFileMissing(HistoryOf(sys, k));
    RevisionsOfUnique(sys.st, k);
    forall s | s in SectionIds(RevisionsOf(sys.st, k)) ensures SectionSound(RowsOf(RevisionsOf(sys.st, k), s)) {
      SectionOfRunSound(sys.st, k, s);
    }
  }

  lemma TurnAdvances(sys: System, e: Event, next: System)
    requires SystemValid(sys) && Turn(sys, e, next)
    ensures Advances(sys.st, next.st)
  {
    hide Valid, Next, BeginAnswer, CommitAnswer, SnapshotJob, Advances, Steps.Exported, JobGood, ArtifactsGood,
         GoodStep;
    AdvancesSelf(sys.st);
    match e
    case Operate(req) => NextIsGood(sys.st, req, next.st);
    case Commit(job, packetId) =>
      var j := sys.jobs[job];
      ExportAdvances(sys.st, j, packetId);
    case _ =>
  }

  lemma ExportAdvances(st: State, job: Job, packetId: Id)
    requires Valid(st) && job.actor.Member(job.caseId)
    ensures Advances(st, Steps.Exported(st, job.actor, job.caseId, packetId, job.at))
  {
    hide Valid, Advances, ElsewhereSame;
    ExportedKeeps(st, job.actor, job.caseId, packetId, job.at);
  }

  lemma {:induction false} SystemsAdvance(systems: seq<System>, events: seq<Event>, i: nat, n: nat)
    requires Generation(systems, events) && i <= n < |systems|
    ensures Advances(systems[i].st, systems[n].st)
    decreases n
  {
    hide SystemValid, Turn, Advances;
    if i == n {
      AdvancesSelf(systems[i].st);
    } else {
      SystemsAdvance(systems, events, i, n - 1);
      EverySystemIsValid(systems, events, n - 1);
      assert Turn(systems[n - 1], events[n - 1], systems[n]);
      TurnAdvances(systems[n - 1], events[n - 1], systems[n]);
      AdvancesTransitive(systems[i].st, systems[n - 1].st, systems[n].st);
    }
  }

  lemma RevisionsOnlyGrow(one: State, two: State, k: Id)
    requires Advances(one, two)
    ensures Elements(RevisionsOf(one, k)) <= Elements(RevisionsOf(two, k))
  {
    hide RevisionsOf;
    forall row | row in RevisionsOf(one, k) ensures row in RevisionsOf(two, k) {
      RevisionsOfAre(one, k, row);
      RevisionsOfAre(two, k, row);
      var r :| r in RevisionIds(one, k) && one.revisions[r] == row;
      assert r in RevisionIds(two, k) && two.revisions[r] == row;
    }
  }

  // A checkpoint taken at any point of any run is accepted at every later point.
  lemma EveryRunIsAccepted(systems: seq<System>, events: seq<Event>, i: nat, n: nat, k: Id)
    requires Generation(systems, events) && FilesKept(systems[0].st) && i <= n < |systems|
    ensures Accepts(CheckpointOf(HistoryOf(systems[n], k)), WrittenAnchor(CheckpointOf(HistoryOf(systems[i], k))))
  {
    hide SystemValid, Turn, Verified, Accepts, RevisionsOf, SubTable, CheckpointOf, WrittenAnchor, FilesKept, Advances,
         ExtractionsOf;
    var a, b := HistoryOf(systems[i], k), HistoryOf(systems[n], k);
    RunVerifies(systems, events, i, k);
    RunVerifies(systems, events, n, k);
    RunExtends(systems, events, i, n, k);
    AcceptsExactlyContinuations(a, b);
  }

  lemma RunVerifies(systems: seq<System>, events: seq<Event>, n: nat, k: Id)
    requires Generation(systems, events) && FilesKept(systems[0].st) && n < |systems|
    ensures Verified(HistoryOf(systems[n], k))
  {
    hide SystemValid, Turn, Verified, RevisionsOf, FilesKept, ExtractionsOf;
    EverySystemIsValid(systems, events, n);
    EverySystemKeepsFiles(systems, events, n);
    FilesKeptMeans(systems[n].st, k);
    ReachableHistoryVerifies(systems[n], k);
  }

  // Whatever runs, every chain only grows.
  lemma RunExtends(systems: seq<System>, events: seq<Event>, i: nat, n: nat, k: Id)
    requires Generation(systems, events) && i <= n < |systems|
    ensures Extends(HistoryOf(systems[i], k), HistoryOf(systems[n], k))
  {
    hide SystemValid, Turn, RevisionsOf, SubTable, ExtractionsOf, ClaimAdvances, ConflictAdvances;
    SystemsAdvance(systems, events, i, n);
    ArtifactsAccumulate(systems, events, i, n, k);
    RevisionsOnlyGrow(systems[i].st, systems[n].st, k);
    ExtractionsOnlyGrow(systems[i].st, systems[n].st, k);
  }
}
