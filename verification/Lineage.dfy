// Report-section revisions: each section's rows must form one line of parents
// from a single root to a single tip.

module Lineage {
  import opened Basics
  import opened Chains
  import opened Evidence

  type RevisionHash = Hash<RevisionContent>

  datatype LineageIssue =
    | RootCount(sectionId: Id, actual: nat)
    | Fork(parentId: Id, actual: nat)
    | ContentMismatch(id: Id)
    | ParentMissing(id: Id)
    | PrevMismatch(id: Id)
    | IntegrityMismatch(id: Id)

  datatype Tip = Tip(sectionId: Id, revisionId: Id, hash: RevisionHash)

  ghost predicate UniqueIds(rows: seq<Revision>)
  {
    forall i, j :: 0 <= i < j < |rows| ==> rows[i].id != rows[j].id
  }

  predicate IsRoot(r: Revision) { r.content.parent.None? }

  predicate ChildOf(r: Revision, parent: Id) { r.content.parent == Some(parent) }

  function Find(rows: seq<Revision>, id: Id): (r: Option<Revision>)
    ensures r.Some? ==> r.value in rows && r.value.id == id
    ensures r.None? ==> forall x :: x in rows ==> x.id != id
  {
    if rows == [] then None
    else if rows[0].id == id then Some(rows[0])
    else
      assert forall x :: x in rows ==> x == rows[0] || x in rows[1..];
      Find(rows[1..], id)
  }

  function Parent(rows: seq<Revision>, r: Revision): Option<Revision>
  {
    if r.content.parent.None? then None else Find(rows, r.content.parent.value)
  }

  function HashOf(r: Option<Revision>): Option<RevisionHash>
  {
    match r
    case None => None
    case Some(x) => Some(x.hash)
  }

  function ExpectedContent(r: Revision): ContentHash
  {
    ContentOf(r.content.caseId, r.content.sectionId, r.content.snapshot)
  }

  // What the verifier checks of one row.
  predicate RowSound(rows: seq<Revision>, r: Revision)
  {
    && r.content.contentHash == ExpectedContent(r)
    && (r.content.parent.Some? ==> Parent(rows, r).Some?)
    && r.prev == HashOf(Parent(rows, r))
    && r.hash == Link(HashOf(Parent(rows, r)), r.id, r.content)
  }

  // What the verifier checks of one section.
  ghost predicate SectionSound(rows: seq<Revision>)
  {
    && (exists r :: r in rows && IsRoot(r))
    && (forall r, s :: r in rows && s in rows && IsRoot(r) && IsRoot(s) ==> r == s)
    && (forall r, s :: r in rows && s in rows && r.content.parent == s.content.parent && !IsRoot(r) ==> r == s)
    && (forall r :: r in rows ==> RowSound(rows, r))
  }

  // ---- The shape a sound section has ----

  // One line: each row names the one before it as parent and chains its hash.
  ghost predicate Line(path: seq<Revision>)
  {
    forall i :: 0 <= i < |path| ==> Step(path, i)
  }

  ghost predicate Step(path: seq<Revision>, i: nat)
    requires i < |path|
  {
    && path[i].content.contentHash == ExpectedContent(path[i])
    && path[i].content.parent == (if i == 0 then None else Some(path[i - 1].id))
    && path[i].prev == (if i == 0 then None else Some(path[i - 1].hash))
    && path[i].hash == Link(path[i].prev, path[i].id, path[i].content)
  }

  // A hash contains its predecessor: lineage cannot be circular.
  ghost function Depth(h: RevisionHash): nat
  {
    match h
    case Link(Some(p), _, _) => 1 + Depth(p)
    case _ => 0
  }

  lemma SameDepthSameRow(rows: seq<Revision>, r: Revision, s: Revision)
    requires SectionSound(rows) && r in rows && s in rows
    requires Depth(r.hash) == Depth(s.hash)
    ensures r == s
    decreases Depth(r.hash)
  {
    assert RowSound(rows, r) && RowSound(rows, s);
    if !IsRoot(r) && !IsRoot(s) {
      var p, q := Parent(rows, r).value, Parent(rows, s).value;
      SameDepthSameRow(rows, p, q);
    }
  }

  // The line of ancestors that ends in a row.
  ghost function Ancestry(rows: seq<Revision>, r: Revision): seq<Revision>
    requires SectionSound(rows) && r in rows
    decreases Depth(r.hash)
  {
    assert RowSound(rows, r);
    if IsRoot(r) then [r] else Ancestry(rows, Parent(rows, r).value) + [r]
  }

  lemma {:induction false} AncestryIsLine(rows: seq<Revision>, r: Revision)
    requires SectionSound(rows) && r in rows
    ensures var path := Ancestry(rows, r);
            && |path| == Depth(r.hash) + 1 && path[|path| - 1] == r && Line(path)
            && forall i :: 0 <= i < |path| ==> path[i] in rows && Depth(path[i].hash) == i
    decreases Depth(r.hash)
  {
    assert RowSound(rows, r);
    if !IsRoot(r) {
      var p := Parent(rows, r).value;
      AncestryIsLine(rows, p);
      var front, path := Ancestry(rows, p), Ancestry(rows, r);
      assert path == front + [r];
      forall i | 0 <= i < |path| ensures Step(path, i) {
        if i < |front| { assert Step(front, i); }
      }
    }
  }

  lemma {:induction false} DeepestExists(rows: seq<Revision>) returns (tip: Revision)
    requires rows != []
    ensures tip in rows && forall r :: r in rows ==> Depth(r.hash) <= Depth(tip.hash)
  {
    tip := rows[0];
    for n := 1 to |rows|
      invariant tip in rows && forall i :: 0 <= i < n ==> Depth(rows[i].hash) <= Depth(tip.hash)
    {
      if Depth(rows[n].hash) > Depth(tip.hash) { tip := rows[n]; }
    }
  }

  // A section that verifies is one linear path from its root to its tip that
  // covers every row: no fork, no second root, no detached cycle.
  lemma SoundSectionIsOneLine(rows: seq<Revision>) returns (path: seq<Revision>)
    requires SectionSound(rows)
    ensures path != [] && Line(path) && Elements(path) == Elements(rows)
    ensures forall i, j :: 0 <= i < j < |path| ==> path[i] != path[j]
  {
    var root :| root in rows && IsRoot(root);
    var tip := DeepestExists(rows);
    path := Ancestry(rows, tip);
    AncestryIsLine(rows, tip);
    forall r | r in rows ensures r in path {
      SameDepthSameRow(rows, r, path[Depth(r.hash)]);
    }
  }

  // Conversely every such line verifies, in whatever order its rows are listed.
  lemma OneLineIsSound(rows: seq<Revision>, path: seq<Revision>)
    requires path != [] && Line(path) && Elements(path) == Elements(rows)
    requires UniqueIds(path)
    ensures SectionSound(rows)
  {
    assert forall x :: x in path <==> x in Elements(path);
    assert forall x :: x in rows <==> x in Elements(rows);
    assert Step(path, 0);
    assert path[0] in path;
    forall r | r in rows ensures RowSound(rows, r) && (IsRoot(r) ==> r == path[0]) {
      var i := IndexOf(path, r);
      assert Step(path, i);
      if i > 0 {
        assert path[i - 1] in path;
        var found := Find(rows, path[i - 1].id);
        assert found.Some? && found.value in path;
        assert IndexOf(path, found.value) == i - 1;
      }
    }
    forall r, s | r in rows && s in rows && r.content.parent == s.content.parent && !IsRoot(r) ensures r == s {
      var i, j := IndexOf(path, r), IndexOf(path, s);
      assert Step(path, i) && Step(path, j);
      assert path[i - 1].id == path[j - 1].id;
    }
  }

  // The verdict is a fact about the set of rows, not about their order.
  lemma VerdictIgnoresOrder(rows: seq<Revision>, shuffled: seq<Revision>)
    requires UniqueIds(rows) && UniqueIds(shuffled) && Elements(rows) == Elements(shuffled)
    ensures SectionSound(rows) <==> SectionSound(shuffled)
  {
    if SectionSound(rows) {
      var path := SoundSectionIsOneLine(rows);
      LineIdsUnique(rows, path);
      OneLineIsSound(shuffled, path);
    }
    if SectionSound(shuffled) {
      var path := SoundSectionIsOneLine(shuffled);
      LineIdsUnique(shuffled, path);
      OneLineIsSound(rows, path);
    }
  }

  lemma LineIdsUnique(rows: seq<Revision>, path: seq<Revision>)
    requires UniqueIds(rows) && Elements(path) == Elements(rows)
    requires forall i, j :: 0 <= i < j < |path| ==> path[i] != path[j]
    ensures UniqueIds(path)
  {
    forall i, j | 0 <= i < j < |path| ensures path[i].id != path[j].id {
      assert path[i] in Elements(path) && path[j] in Elements(path);
      var m, n := IndexOf(rows, path[i]), IndexOf(rows, path[j]);
      assert m != n;
    }
  }

  // ---- Appending a revision ----

  function NextRevision(parent: Option<Revision>, id: Id, content: RevisionContent): Revision
  {
    Row(id, content, HashOf(parent), Link(HashOf(parent), id, content))
  }

  lemma AppendExtendsLine(path: seq<Revision>, id: Id, content: RevisionContent)
    requires Line(path)
    requires content.parent == (if path == [] then None else Some(path[|path| - 1].id))
    requires content.contentHash == ContentOf(content.caseId, content.sectionId, content.snapshot)
    ensures Line(path + [NextRevision(if path == [] then None else Some(path[|path| - 1]), id, content)])
  {
    var longer := path + [NextRevision(if path == [] then None else Some(path[|path| - 1]), id, content)];
    forall i | 0 <= i < |longer| ensures Step(longer, i) {
      if i < |path| { assert Step(path, i); }
    }
  }

  // ---- The verifier ----

  function Filter(rows: seq<Revision>, p: Revision -> bool): (r: seq<Revision>)
    ensures forall x :: x in r <==> x in rows && p(x)
    ensures |r| <= |rows|
  {
    if rows == [] then []
    else
      assert forall x :: x in rows <==> x == rows[0] || x in rows[1..];
      (if p(rows[0]) then [rows[0]] else []) + Filter(rows[1..], p)
  }

  // With unique rows, at most one passes exactly when any two that pass coincide.
  lemma {:induction false} FilterAtMostOne(rows: seq<Revision>, p: Revision -> bool)
    requires UniqueIds(rows)
    ensures |Filter(rows, p)| <= 1 <==> forall x, y :: x in rows && y in rows && p(x) && p(y) ==> x == y
  {
    if rows != [] {
      var rest := rows[1..];
      FilterAtMostOne(rest, p);
      assert forall x :: x in rows <==> x == rows[0] || x in rest;
      if p(rows[0]) {
        forall x | x in rest ensures x != rows[0] {
          assert x == rest[IndexOf(rest, x)] && x == rows[IndexOf(rest, x) + 1];
        }
        if Filter(rest, p) != [] { assert Filter(rest, p)[0] in Filter(rest, p); }
      }
    }
  }

  method CheckRow(rows: seq<Revision>, r: Revision) returns (issues: seq<LineageIssue>)
    ensures issues == [] <==> RowSound(rows, r)
  {
    issues := [];
    if r.content.contentHash != ExpectedContent(r) { issues := issues + [ContentMismatch(r.id)]; }
    var parent := Parent(rows, r);
    if r.content.parent.Some? && parent.None? { issues := issues + [ParentMissing(r.id)]; }
    if r.prev != HashOf(parent) { issues := issues + [PrevMismatch(r.id)]; }
    if r.hash != Link(HashOf(parent), r.id, r.content) { issues := issues + [IntegrityMismatch(r.id)]; }
  }

  method CheckRows(rows: seq<Revision>) returns (issues: seq<LineageIssue>)
    ensures issues == [] <==> forall i :: 0 <= i < |rows| ==> RowSound(rows, rows[i])
  {
    issues := [];
    for n := 0 to |rows|
      invariant issues == [] <==> forall i :: 0 <= i < n ==> RowSound(rows, rows[i])
    {
      var found := CheckRow(rows, rows[n]);
      issues := issues + found;
    }
  }

  method CheckForks(rows: seq<Revision>, parents: seq<Id>) returns (issues: seq<LineageIssue>)
    requires UniqueIds(rows)
    ensures issues == [] <==> forall i :: 0 <= i < |parents| ==> NoForkAt(rows, parents[i])
  {
    issues := [];
    for n := 0 to |parents|
      invariant issues == [] <==> forall i :: 0 <= i < n ==> NoForkAt(rows, parents[i])
    {
      var children := Filter(rows, (x: Revision) => ChildOf(x, parents[n]));
      FilterAtMostOne(rows, (x: Revision) => ChildOf(x, parents[n]));
      if |children| > 1 { issues := issues + [Fork(parents[n], |children|)]; }
    }
  }

  method CheckRoots(sectionId: Id, rows: seq<Revision>) returns (issues: seq<LineageIssue>)
    requires UniqueIds(rows)
    ensures issues == [] <==> OneRoot(rows)
  {
    issues := [];
    var roots := Filter(rows, IsRoot);
    FilterAtMostOne(rows, IsRoot);
    if |roots| != 1 { issues := issues + [RootCount(sectionId, |roots|)]; }
    if roots != [] { assert roots[0] in roots; }
  }

  // One section: root count, forks, then every row; the tips are the rows
  // nobody names as parent.
  method VerifySection(sectionId: Id, rows: seq<Revision>) returns (issues: seq<LineageIssue>, tips: set<Tip>)
    requires UniqueIds(rows)
    ensures issues == [] <==> SectionSound(rows)
    ensures tips == TipsOf(rows)
  {
    var rootIssues := CheckRoots(sectionId, rows);
    var parents := ParentIds(rows);
    var forkIssues := CheckForks(rows, parents);
    var rowIssues := CheckRows(rows);
    SoundByParts(rows, parents);
    issues := rootIssues + forkIssues + rowIssues;
    tips := TipsOf(rows);
  }

  function RowsOf(rows: seq<Revision>, sectionId: Id): (r: seq<Revision>)
    ensures forall x :: x in r <==> x in rows && x.content.sectionId == sectionId
  {
    if rows == [] then []
    else
      assert forall x :: x in rows <==> x == rows[0] || x in rows[1..];
      (if rows[0].content.sectionId == sectionId then [rows[0]] else []) + RowsOf(rows[1..], sectionId)
  }

  lemma {:induction false} RowsOfUnique(rows: seq<Revision>, sectionId: Id)
    requires UniqueIds(rows)
    ensures UniqueIds(RowsOf(rows, sectionId))
  {
    if rows != [] {
      RowsOfUnique(rows[1..], sectionId);
      var rest := RowsOf(rows[1..], sectionId);
      forall i | 0 <= i < |rest| ensures rest[i].id != rows[0].id {
        assert rest[i] in rest;
        var j := IndexOf(rows[1..], rest[i]);
        assert rows[j + 1] == rest[i];
      }
    }
  }

  function SectionIds(rows: seq<Revision>): (ids: set<Id>)
  {
    set r | r in rows :: r.content.sectionId
  }

  ghost predicate AllSound(rows: seq<Revision>, sections: set<Id>)
  {
    forall s :: s in sections ==> SectionSound(RowsOf(rows, s))
  }

  function TipsIn(rows: seq<Revision>, sections: set<Id>): set<Tip>
  {
    set s, t | s in sections && t in TipsOf(RowsOf(rows, s)) :: t
  }

  lemma NoSections(rows: seq<Revision>)
    ensures AllSound(rows, {}) && TipsIn(rows, {}) == {}
  {
  }

  lemma OneMoreSection(rows: seq<Revision>, sections: set<Id>, s: Id)
    ensures AllSound(rows, sections + {s}) <==> AllSound(rows, sections) && SectionSound(RowsOf(rows, s))
    ensures TipsIn(rows, sections + {s}) == TipsIn(rows, sections) + TipsOf(RowsOf(rows, s))
  {
    hide SectionSound, TipsOf, RowsOf;
  }

  // The sections are independent lineages; the root is the set of their tips.
  datatype RevisionReport = RevisionReport(ok: bool, checked: nat, tips: set<Tip>, issues: seq<LineageIssue>)

  method VerifyRevisions(rows: seq<Revision>) returns (report: RevisionReport)
    requires UniqueIds(rows)
    ensures report.ok <==> AllSound(rows, SectionIds(rows))
    ensures report.checked == |rows|
    ensures report.tips == TipsIn(rows, SectionIds(rows))
  {
    hide AllSound, TipsIn, RowsOf, SectionIds, SectionSound, TipsOf;
    var issues: seq<LineageIssue> := [];
    var tips: set<Tip> := {};
    var todo := SectionIds(rows);
    NoSections(rows);
    assert todo - todo == {};
    while todo != {}
      invariant todo <= SectionIds(rows)
      invariant issues == [] <==> AllSound(rows, SectionIds(rows) - todo)
      invariant tips == TipsIn(rows, SectionIds(rows) - todo)
    {
      var s :| s in todo;
      RowsOfUnique(rows, s);
      var found, sectionTips := VerifySection(s, RowsOf(rows, s));
      OneMoreSection(rows, SectionIds(rows) - todo, s);
      assert SectionIds(rows) - (todo - {s}) == (SectionIds(rows) - todo) + {s};
      issues := issues + found;
      tips := tips + sectionTips;
      todo := todo - {s};
    }
    assert SectionIds(rows) - {} == SectionIds(rows);
    report := RevisionReport(issues == [], |rows|, tips, issues);
  }

  ghost predicate OneRoot(rows: seq<Revision>)
  {
    && (exists r :: r in rows && IsRoot(r))
    && (forall r, s :: r in rows && s in rows && IsRoot(r) && IsRoot(s) ==> r == s)
  }

  ghost predicate NoForkAt(rows: seq<Revision>, parent: Id)
  {
    forall r, s :: r in rows && s in rows && ChildOf(r, parent) && ChildOf(s, parent) ==> r == s
  }

  // The parents that some row names, in order of first mention.
  function ParentIds(rows: seq<Revision>): (r: seq<Id>)
    ensures forall x :: x in rows && !IsRoot(x) ==> x.content.parent.value in r
  {
    var mentions := Mentions(rows);
    assert forall x :: x in rows && !IsRoot(x) ==> x.content.parent.value in mentions;
    Dedup(mentions)
  }

  function Mentions(rows: seq<Revision>): (r: seq<Id>)
    ensures forall x :: x in rows && !IsRoot(x) ==> x.content.parent.value in r
  {
    if rows == [] then []
    else
      assert forall x :: x in rows <==> x == rows[0] || x in rows[1..];
      (if IsRoot(rows[0]) then [] else [rows[0].content.parent.value]) + Mentions(rows[1..])
  }

  lemma SoundByParts(rows: seq<Revision>, parents: seq<Id>)
    requires forall x :: x in rows && !IsRoot(x) ==> x.content.parent.value in parents
    ensures SectionSound(rows) <==>
              OneRoot(rows) && (forall i :: 0 <= i < |parents| ==> NoForkAt(rows, parents[i])) &&
              (forall i :: 0 <= i < |rows| ==> RowSound(rows, rows[i]))
  {
    hide RowSound;
    if OneRoot(rows) && (forall i :: 0 <= i < |parents| ==> NoForkAt(rows, parents[i])) {
      forall r, s | r in rows && s in rows && r.content.parent == s.content.parent && !IsRoot(r) ensures r == s {
        assert NoForkAt(rows, parents[IndexOf(parents, r.content.parent.value)]);
      }
    }
  }

  function TipsOf(rows: seq<Revision>): set<Tip>
  {
    set r | r in rows && (forall x :: x in rows ==> !ChildOf(x, r.id)) :: Tip(r.content.sectionId, r.id, r.hash)
  }
}
