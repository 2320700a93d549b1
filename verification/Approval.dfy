// Evidence-state binding for production approval: the two closure loops, the
// digest loop, and what the closure and the digest depend on.

module Approval {
  import opened Basics
  import opened Domain
  import opened Evidence

  // ---- What the closure is: everything within reach, nearest first ----

  // The claims at most n preserved conflicts away from the citations.
  ghost function Within(edges: set<Edge>, roots: set<Id>, n: nat): set<Id>
  {
    if n == 0 then roots else Within(edges, roots, n - 1) + Neighbours(edges, Within(edges, roots, n - 1))
  }

  ghost function Ring(edges: set<Edge>, roots: set<Id>, n: nat): set<Id>
  {
    if n == 0 then roots else Within(edges, roots, n) - Within(edges, roots, n - 1)
  }

  // The k rings after ring n, each in identifier order.
  ghost function RingsFrom(edges: set<Edge>, roots: set<Id>, n: nat, k: nat): seq<Id>
    decreases k
  {
    if k == 0 then [] else Sorted(Ring(edges, roots, n + 1)) + RingsFrom(edges, roots, n + 1, k - 1)
  }

  lemma NeighboursOfUnion(edges: set<Edge>, a: set<Id>, b: set<Id>)
    ensures Neighbours(edges, a + b) == Neighbours(edges, a) + Neighbours(edges, b)
  {
  }

  // One turn of the loop discovers exactly the next ring.
  lemma NextRing(edges: set<Edge>, roots: set<Id>, n: nat)
    ensures Neighbours(edges, Ring(edges, roots, n)) - Within(edges, roots, n) == Ring(edges, roots, n + 1)
    ensures Within(edges, roots, n) + Ring(edges, roots, n + 1) == Within(edges, roots, n + 1)
  {
    var w := Within(edges, roots, n);
    assert Within(edges, roots, n + 1) == w + Neighbours(edges, w);
    if n > 0 {
      var v := Within(edges, roots, n - 1);
      assert w == v + Ring(edges, roots, n);
      NeighboursOfUnion(edges, v, Ring(edges, roots, n));
    }
  }

  // An empty ring ends the search: nothing further is ever reached.
  lemma {:induction false} EmptyRingIsLast(edges: set<Edge>, roots: set<Id>, m: nat, n: nat)
    requires m <= n && Ring(edges, roots, m) == {}
    ensures Ring(edges, roots, n) == {}
    ensures Within(edges, roots, n) == Within(edges, roots, m)
    decreases n - m
  {
    if m < n {
      NextRing(edges, roots, m);
      assert Neighbours(edges, {}) == {};
      assert Ring(edges, roots, m + 1) == {};
      EmptyRingIsLast(edges, roots, m + 1, n);
    }
  }

  lemma {:induction false} ExpandIsRings(edges: set<Edge>, roots: set<Id>, n: nat, seen: set<Id>, frontier: set<Id>)
    returns (m: nat)
    requires seen == Within(edges, roots, n) && frontier == Ring(edges, roots, n)
    ensures n <= m && Ring(edges, roots, m) == {}
    ensures Expand(edges, seen, frontier) == RingsFrom(edges, roots, n, m - n)
    decreases Ends(edges) - seen, frontier
  {
    hide Neighbours, Ends;
    if frontier == {} {
      m := n;
    } else {
      NextRing(edges, roots, n);
      NeighboursAreEnds(edges, frontier);
      var d := Neighbours(edges, frontier) - seen;
      m := ExpandIsRings(edges, roots, n + 1, seen + d, d);
      assert m != n;
    }
  }

  // One turn of the loop, with what was collected before it.
  lemma ExpandOnce(edges: set<Edge>, seen: set<Id>, frontier: set<Id>, d: set<Id>, before: seq<Id>)
    requires frontier != {} && d == Neighbours(edges, frontier) - seen
    ensures before + Expand(edges, seen, frontier) == (before + Sorted(d)) + Expand(edges, seen + d, d)
  {
    Regroup(before, Sorted(d), Expand(edges, seen + d, d));
  }

  lemma Regroup<T>(a: seq<T>, b: seq<T>, c: seq<T>)
    ensures a + (b + c) == (a + b) + c
  {
  }

  // The citations in first-cited order, then every reachable claim by distance
  // and, at one distance, by identifier.
  lemma ClosureByDistance(edges: set<Edge>, cites: seq<Id>) returns (k: nat)
    ensures Ring(edges, Elements(cites), k) == {}
    ensures EvidenceIds(edges, cites) == Dedup(cites) + RingsFrom(edges, Elements(cites), 0, k)
  {
    assert Elements(Dedup(cites)) == Elements(cites);
    k := ExpandIsRings(edges, Elements(cites), 0, Elements(cites), Elements(cites));
  }

  lemma {:induction false} ExpandDistinct(edges: set<Edge>, seen: set<Id>, frontier: set<Id>)
    ensures Distinct(Expand(edges, seen, frontier))
    ensures forall x :: x in Expand(edges, seen, frontier) ==> x !in seen
    decreases Ends(edges) - seen, frontier
  {
    hide Neighbours, Ends;
    if frontier != {} {
      NeighboursAreEnds(edges, frontier);
      var d := Neighbours(edges, frontier) - seen;
      ExpandDistinct(edges, seen + d, d);
      SortedFacts(d);
      DistinctConcat(Sorted(d), Expand(edges, seen + d, d));
    }
  }

  lemma ElementsOfConcat(seen: set<Id>, d: set<Id>, rest: seq<Id>)
    ensures seen + Elements(Sorted(d) + rest) == (seen + d) + Elements(rest)
  {
    SortedFacts(d);
  }

  lemma {:induction false} ExpandCloses(edges: set<Edge>, seen: set<Id>, frontier: set<Id>)
    requires frontier <= seen
    requires Neighbours(edges, seen - frontier) <= seen
    ensures var all := seen + Elements(Expand(edges, seen, frontier)); Neighbours(edges, all) <= all
    decreases Ends(edges) - seen, frontier
  {
    hide Neighbours, Ends;
    if frontier == {} {
      assert seen - frontier == seen;
      assert seen + Elements(Expand(edges, seen, frontier)) == seen;
    } else {
      NeighboursAreEnds(edges, frontier);
      var d := Neighbours(edges, frontier) - seen;
      assert Neighbours(edges, (seen + d) - d) <= seen + d by {
        NeighboursOfUnion(edges, seen - frontier, frontier);
        assert (seen - frontier) + frontier == seen;
        assert (seen + d) - d == seen;
      }
      ExpandCloses(edges, seen + d, d);
      ElementsOfConcat(seen, d, Expand(edges, seen + d, d));
    }
  }

  lemma {:induction false} ExpandStaysInside(edges: set<Edge>, seen: set<Id>, frontier: set<Id>, region: set<Id>)
    requires frontier <= region && Neighbours(edges, region) <= region
    ensures forall x :: x in Expand(edges, seen, frontier) ==> x in region
    decreases Ends(edges) - seen, frontier
  {
    hide Neighbours, Ends;
    if frontier != {} {
      NeighboursAreEnds(edges, frontier);
      var d := Neighbours(edges, frontier) - seen;
      assert frontier + region == region;
      NeighboursOfUnion(edges, frontier, region);
      SortedFacts(d);
      ExpandStaysInside(edges, seen + d, d, region);
    }
  }

  // The closure is the least set that holds the citations and is closed under
  // preserved conflicts, listed without repetition.
  lemma ClosureIsLeast(edges: set<Edge>, cites: seq<Id>, region: set<Id>)
    ensures Distinct(EvidenceIds(edges, cites))
    ensures Elements(cites) <= Elements(EvidenceIds(edges, cites))
    ensures Neighbours(edges, Elements(EvidenceIds(edges, cites))) <= Elements(EvidenceIds(edges, cites))
    ensures Elements(cites) <= region && Neighbours(edges, region) <= region ==>
              Elements(EvidenceIds(edges, cites)) <= region
  {
    var ordered := Dedup(cites);
    var roots := Elements(ordered);
    assert roots == Elements(cites);
    assert Neighbours(edges, roots - roots) == {};
    ExpandDistinct(edges, roots, roots);
    ExpandCloses(edges, roots, roots);
    var rest := Expand(edges, roots, roots);
    DistinctConcat(ordered, rest);
    assert EvidenceIds(edges, cites) == ordered + rest;
    assert Elements(ordered + rest) == roots + Elements(rest);
    if roots <= region && Neighbours(edges, region) <= region {
      ExpandStaysInside(edges, roots, roots, region);
    }
  }

  // Both ends of a preserved conflict enter the closure together.
  lemma ClosureHoldsBothEnds(conflicts: map<Id, Conflict>, cites: seq<Id>, f: Id)
    requires f in conflicts && conflicts[f].status == PreservedBoth
    ensures conflicts[f].a in EvidenceOf(conflicts, cites) <==> conflicts[f].b in EvidenceOf(conflicts, cites)
  {
    ClosureIsLeast(PreservedEdges(conflicts), cites, {});
    var edges, evidence := PreservedEdges(conflicts), Elements(EvidenceOf(conflicts, cites));
    assert (conflicts[f].a, conflicts[f].b) in edges && (conflicts[f].b, conflicts[f].a) in edges;
    if conflicts[f].a in evidence { assert conflicts[f].b in Neighbours(edges, evidence); }
    if conflicts[f].b in evidence { assert conflicts[f].a in Neighbours(edges, evidence); }
  }

  // ---- What the closure depends on ----

  // Two tables agree on a region of claims when the conflicts touching it are
  // the same rows, up to the summary text, and no preserved one crosses its border.
  ghost predicate AgreeOn(one: map<Id, Conflict>, two: map<Id, Conflict>, region: set<Id>)
  {
    && (forall f :: f in one && Meets(one[f], region) ==> f in two && SameButSummary(one[f], two[f]))
    && (forall f :: f in two && Meets(two[f], region) ==> f in one && SameButSummary(one[f], two[f]))
    && (forall f :: f in one && Meets(one[f], region) && one[f].status == PreservedBoth ==>
          one[f].a in region && one[f].b in region)
  }

  predicate Meets(f: Conflict, region: set<Id>) { f.a in region || f.b in region }

  predicate SameButSummary(f: Conflict, g: Conflict) { f == g.(summary := f.summary) }

  ghost predicate EdgesAgreeOn(one: set<Edge>, two: set<Edge>, region: set<Id>)
  {
    forall e: Edge :: e.0 in region ==> (e in one <==> e in two) && (e in one ==> e.1 in region)
  }

  lemma AgreeingEdges(one: map<Id, Conflict>, two: map<Id, Conflict>, region: set<Id>)
    requires AgreeOn(one, two, region)
    ensures EdgesAgreeOn(PreservedEdges(one), PreservedEdges(two), region)
  {
    forall e: Edge | e.0 in region
      ensures e in PreservedEdges(one) <==> e in PreservedEdges(two)
      ensures e in PreservedEdges(one) ==> e.1 in region
    {
      if e in PreservedEdges(one) {
        var f := EdgeWitness(one, e);
        assert Meets(one[f], region) && SameButSummary(one[f], two[f]);
      }
      if e in PreservedEdges(two) {
        var f := EdgeWitness(two, e);
        assert Meets(two[f], region) && SameButSummary(one[f], two[f]);
      }
    }
  }

  lemma EdgeWitness(conflicts: map<Id, Conflict>, e: Edge) returns (f: Id)
    requires e in PreservedEdges(conflicts)
    ensures f in conflicts && conflicts[f].status == PreservedBoth
    ensures e == (conflicts[f].a, conflicts[f].b) || e == (conflicts[f].b, conflicts[f].a)
  {
    f :| f in conflicts && conflicts[f].status == PreservedBoth &&
         (e == (conflicts[f].a, conflicts[f].b) || e == (conflicts[f].b, conflicts[f].a));
  }

  lemma NeighboursFrame(one: set<Edge>, two: set<Edge>, region: set<Id>, frontier: set<Id>)
    requires EdgesAgreeOn(one, two, region) && frontier <= region
    ensures Neighbours(one, frontier) == Neighbours(two, frontier) <= region
  {
  }

  lemma {:induction false} ExpandFrame(one: set<Edge>, two: set<Edge>, region: set<Id>, seen: set<Id>,
                                       frontier: set<Id>)
    requires EdgesAgreeOn(one, two, region) && frontier <= region
    ensures Expand(one, seen, frontier) == Expand(two, seen, frontier)
    ensures forall x :: x in Expand(one, seen, frontier) ==> x in region
    decreases Ends(one) - seen, frontier
  {
    hide Neighbours, Ends;
    if frontier != {} {
      NeighboursFrame(one, two, region, frontier);
      NeighboursAreEnds(one, frontier);
      var d := Neighbours(one, frontier) - seen;
      SortedFacts(d);
      ExpandFrame(one, two, region, seen + d, d);
    }
  }

  lemma ClosureFrame(one: map<Id, Conflict>, two: map<Id, Conflict>, region: set<Id>, cites: seq<Id>)
    requires AgreeOn(one, two, region) && Elements(cites) <= region
    ensures EvidenceOf(one, cites) == EvidenceOf(two, cites)
    ensures forall x :: x in EvidenceOf(one, cites) ==> x in region
  {
    AgreeingEdges(one, two, region);
    var roots := Elements(Dedup(cites));
    assert forall x :: x in Dedup(cites) ==> x in Elements(cites);
    ExpandFrame(PreservedEdges(one), PreservedEdges(two), region, roots, roots);
  }

  lemma AgreeingIncident(one: map<Id, Conflict>, two: map<Id, Conflict>, region: set<Id>, claim: Id)
    requires AgreeOn(one, two, region) && claim in region
    ensures Incident(one, claim) == Incident(two, claim)
    ensures forall f :: f in Incident(one, claim) ==> SameButSummary(one[f], two[f])
  {
    forall f ensures f in Incident(one, claim) <==> f in Incident(two, claim) {
      if f in one && one[f].Touches(claim) { assert Meets(one[f], region) && SameButSummary(one[f], two[f]); }
      if f in two && two[f].Touches(claim) { assert Meets(two[f], region) && SameButSummary(one[f], two[f]); }
    }
  }

  // The region's claims, their sources and the conflicts touching them are the same rows.
  ghost predicate SameEvidence(one: State, two: State, region: set<Id>)
  {
    && AgreeOn(one.conflicts, two.conflicts, region)
    && (forall f :: f in one.conflicts && Meets(one.conflicts[f], region) ==>
          f in two.conflicts && one.conflicts[f] == two.conflicts[f])
    && (forall c :: c in region ==> SameClaimAndSource(one, two, c))
  }

  ghost predicate SameClaimAndSource(one: State, two: State, c: Id)
  {
    && (c in one.claims <==> c in two.claims)
    && (c in one.claims ==> one.claims[c] == two.claims[c])
    && (c in one.claims ==>
          ImageOfSource(one.sources, one.claims[c].sourceId) == ImageOfSource(two.sources, one.claims[c].sourceId))
  }

  lemma IncidentImagesFrame(one: State, two: State, region: set<Id>, c: Id)
    requires c in region && SameEvidence(one, two, region)
    ensures IncidentImages(one.conflicts, c) == IncidentImages(two.conflicts, c)
  {
    AgreeingIncident(one.conflicts, two.conflicts, region, c);
    var ids := Sorted(Incident(one.conflicts, c));
    SortedFacts(Incident(one.conflicts, c));
    forall f | f in ids
      ensures f in one.conflicts && f in two.conflicts && one.conflicts[f] == two.conflicts[f]
    {
      assert f in Incident(one.conflicts, c);
      assert Meets(one.conflicts[f], region);
    }
    assert ConflictImages(one.conflicts, ids) == ConflictImages(two.conflicts, ids);
  }

  lemma ImageFrame(one: State, two: State, region: set<Id>, c: Id)
    requires c in region && SameEvidence(one, two, region)
    ensures ClaimImageIn(one.sources, one.claims, one.conflicts, c)
            == ClaimImageIn(two.sources, two.claims, two.conflicts, c)
  {
    assert SameClaimAndSource(one, two, c);
    if c in one.claims {
      IncidentImagesFrame(one, two, region, c);
    }
  }

  // The digest depends only on the evidence claims, their sources and the
  // conflicts that touch them.
  lemma DigestFrame(one: State, two: State, region: set<Id>, cites: seq<Id>)
    requires Elements(cites) <= region && SameEvidence(one, two, region)
    ensures EvidenceDigest(one, cites) == EvidenceDigest(two, cites)
  {
    ClosureFrame(one.conflicts, two.conflicts, region, cites);
    var evidence := EvidenceOf(one.conflicts, cites);
    forall i | 0 <= i < |evidence|
      ensures ClaimImageIn(one.sources, one.claims, one.conflicts, evidence[i])
              == ClaimImageIn(two.sources, two.claims, two.conflicts, evidence[i])
    {
      ImageFrame(one, two, region, evidence[i]);
    }
    assert EvidenceDigest(one, cites).claims == EvidenceDigest(two, cites).claims;
  }

  // ---- The loops ----

  // The database form: each turn queries the preserved conflicts that touch the
  // frontier; the rows may arrive in any order.
  method ProductionEvidenceClaimIds(conflicts: map<Id, Conflict>, cites: seq<Id>) returns (ordered: seq<Id>)
    ensures ordered == EvidenceOf(conflicts, cites)
  {
    ordered := Dedup(cites);
    var seen := Elements(ordered);
    var frontier := seen;
    ghost var edges := PreservedEdges(conflicts);
    while frontier != {}
      invariant frontier <= seen
      invariant ordered + Expand(edges, seen, frontier) == EvidenceIds(edges, cites)
      decreases Ends(edges) - seen, frontier
    {
      var rows := PreservedRowsMeeting(conflicts, frontier);
      QueryFindsNeighbours(conflicts, frontier, seen, rows);
      var discovered := Discover(conflicts, rows, seen);
      ExpandOnce(edges, seen, frontier, discovered, ordered);
      seen := seen + discovered;
      ordered := ordered + Sorted(discovered);
      frontier := discovered;
    }
  }

  // The preserved conflicts with an end in the frontier.
  function PreservedRowsMeeting(conflicts: map<Id, Conflict>, frontier: set<Id>): (rows: set<Id>)
    ensures rows <= conflicts.Keys
  {
    set f | f in conflicts && conflicts[f].status == PreservedBoth && Meets(conflicts[f], frontier)
  }

  ghost function EndsOf(conflicts: map<Id, Conflict>, rows: set<Id>): set<Id>
    requires rows <= conflicts.Keys
  {
    (set f | f in rows :: conflicts[f].a) + (set f | f in rows :: conflicts[f].b)
  }

  lemma QueryFindsNeighbours(conflicts: map<Id, Conflict>, frontier: set<Id>, seen: set<Id>, rows: set<Id>)
    requires frontier <= seen && rows == PreservedRowsMeeting(conflicts, frontier)
    ensures EndsOf(conflicts, rows) - seen == Neighbours(PreservedEdges(conflicts), frontier) - seen
  {
    var edges := PreservedEdges(conflicts);
    forall x | x in EndsOf(conflicts, rows) && x !in seen ensures x in Neighbours(edges, frontier) {
      var f :| f in rows && (x == conflicts[f].a || x == conflicts[f].b);
      assert (conflicts[f].a, conflicts[f].b) in edges && (conflicts[f].b, conflicts[f].a) in edges;
    }
    forall x | x in Neighbours(edges, frontier) ensures x in EndsOf(conflicts, rows) {
      var e :| e in edges && e.0 in frontier && e.1 == x;
      var f := EdgeWitness(conflicts, e);
      assert f in rows;
    }
  }

  // One turn's inner loop over the fetched rows and their two ends.
  method Discover(conflicts: map<Id, Conflict>, rows: set<Id>, seenBefore: set<Id>) returns (discovered: set<Id>)
    requires rows <= conflicts.Keys
    ensures discovered == EndsOf(conflicts, rows) - seenBefore
  {
    discovered := {};
    var seen, todo := seenBefore, rows;
    while todo != {}
      invariant todo <= rows
      invariant seen == seenBefore + discovered
      invariant discovered == EndsOf(conflicts, rows - todo) - seenBefore
    {
      var f :| f in todo;
      var row := conflicts[f];
      ghost var done := rows - todo;
      if row.a !in seen { seen := seen + {row.a}; discovered := discovered + {row.a}; }
      if row.b !in seen { seen := seen + {row.b}; discovered := discovered + {row.b}; }
      todo := todo - {f};
      assert rows - todo == done + {f};
      assert EndsOf(conflicts, done + {f}) == EndsOf(conflicts, done) + {row.a, row.b};
    }
    assert rows - {} == rows;
  }

  function RowEdges(rows: seq<Conflict>): set<Edge>
  {
    (set row | row in rows && row.status == PreservedBoth :: (row.a, row.b)) +
    (set row | row in rows && row.status == PreservedBoth :: (row.b, row.a))
  }

  // The snapshot form: the same expansion over rows already in memory.
  method EvidenceClaimIdsFromConflicts(cites: seq<Id>, rows: seq<Conflict>) returns (ordered: seq<Id>)
    ensures ordered == EvidenceIds(RowEdges(rows), cites)
  {
    ordered := Dedup(cites);
    var seen := Elements(ordered);
    var frontier := seen;
    var preserved := set row | row in rows && row.status == PreservedBoth;
    ghost var edges := RowEdges(rows);
    while frontier != {}
      invariant frontier <= seen
      invariant ordered + Expand(edges, seen, frontier) == EvidenceIds(edges, cites)
      decreases Ends(edges) - seen, frontier
    {
      var discovered := RowEnds(preserved, frontier) - seen;
      RowsFindNeighbours(rows, preserved, frontier, seen);
      ExpandOnce(edges, seen, frontier, discovered, ordered);
      seen := seen + discovered;
      ordered := ordered + Sorted(discovered);
      frontier := discovered;
    }
  }

  lemma RowsFindNeighbours(rows: seq<Conflict>, preserved: set<Conflict>, frontier: set<Id>, seen: set<Id>)
    requires frontier <= seen && preserved == set row | row in rows && row.status == PreservedBoth
    ensures RowEnds(preserved, frontier) - seen == Neighbours(RowEdges(rows), frontier) - seen
  {
    var edges := RowEdges(rows);
    forall x | x in Neighbours(edges, frontier) ensures x in RowEnds(preserved, frontier) {
      var e :| e in edges && e.0 in frontier && e.1 == x;
      var row :| row in rows && row.status == PreservedBoth && (e == (row.a, row.b) || e == (row.b, row.a));
      assert row in preserved && Meets(row, frontier);
    }
    forall x | x in RowEnds(preserved, frontier) && x !in seen ensures x in Neighbours(edges, frontier) {
      var row :| row in preserved && Meets(row, frontier) && (x == row.a || x == row.b);
      assert (row.a, row.b) in edges && (row.b, row.a) in edges;
    }
  }

  function RowEnds(preserved: set<Conflict>, frontier: set<Id>): set<Id>
  {
    (set row | row in preserved && Meets(row, frontier) :: row.a) +
    (set row | row in preserved && Meets(row, frontier) :: row.b)
  }

  // Both loops return the same list for the same table, however its rows are listed.
  lemma BothLoopsAgree(conflicts: map<Id, Conflict>, rows: seq<Conflict>)
    requires Elements(rows) == conflicts.Values
    ensures RowEdges(rows) == PreservedEdges(conflicts)
  {
    forall e ensures e in RowEdges(rows) <==> e in PreservedEdges(conflicts) {
      if e in RowEdges(rows) {
        var row :| row in rows && row.status == PreservedBoth && (e == (row.a, row.b) || e == (row.b, row.a));
        assert row in Elements(rows);
        var f :| f in conflicts && conflicts[f] == row;
      }
      if e in PreservedEdges(conflicts) {
        var f := EdgeWitness(conflicts, e);
        assert conflicts[f] in conflicts.Values;
        assert conflicts[f] in Elements(rows);
      }
    }
  }

  // ---- The digest loops ----

  // The rows of `ids` that touch a claim, in the same order.
  function TouchingRows(conflicts: map<Id, Conflict>, ids: seq<Id>, claim: Id): seq<Id>
  {
    if ids == [] then []
    else
      var front, last := ids[..|ids| - 1], ids[|ids| - 1];
      TouchingRows(conflicts, front, claim) +
      if last in conflicts && conflicts[last].Touches(claim) then [last] else []
  }

  lemma {:induction false} TouchingRowsInOrder(conflicts: map<Id, Conflict>, ids: seq<Id>, claim: Id)
    requires InOrder(map[], ids)
    ensures InOrder(map[], TouchingRows(conflicts, ids, claim))
    ensures forall f :: f in TouchingRows(conflicts, ids, claim) <==>
              f in ids && f in conflicts && conflicts[f].Touches(claim)
  {
    if ids != [] {
      var front, last := ids[..|ids| - 1], ids[|ids| - 1];
      assert forall f :: f in ids <==> f in front || f == last;
      TouchingRowsInOrder(conflicts, front, claim);
      var before := TouchingRows(conflicts, front, claim);
      forall i | 0 <= i < |before| ensures Before(map[], before[i], last) {
        assert before[i] in before;
        var j := IndexOf(front, before[i]);
        assert ids[j] == before[i];
      }
    }
  }

  lemma TouchingRowsAreSorted(conflicts: map<Id, Conflict>, claim: Id)
    ensures TouchingRows(conflicts, Sorted(conflicts.Keys), claim) == Sorted(Incident(conflicts, claim))
  {
    SortedFacts(conflicts.Keys);
    SortedByFacts(conflicts.Keys, map[]);
    SortedByFacts(Incident(conflicts, claim), map[]);
    TouchingRowsInOrder(conflicts, Sorted(conflicts.Keys), claim);
    InOrderUnique(map[], TouchingRows(conflicts, Sorted(conflicts.Keys), claim), Sorted(Incident(conflicts, claim)));
  }

  function ListFor(byClaim: map<Id, seq<Id>>, claim: Id): seq<Id>
  {
    if claim in byClaim then byClaim[claim] else []
  }

  ghost predicate Grouped(byClaim: map<Id, seq<Id>>, conflicts: map<Id, Conflict>, ids: seq<Id>)
  {
    forall c :: ListFor(byClaim, c) == TouchingRows(conflicts, ids, c)
  }

  function AppendRow(byClaim: map<Id, seq<Id>>, claim: Id, f: Id): map<Id, seq<Id>>
  {
    byClaim[claim := ListFor(byClaim, claim) + [f]]
  }

  lemma TouchingRowsSnoc(conflicts: map<Id, Conflict>, ids: seq<Id>, f: Id, claim: Id)
    ensures TouchingRows(conflicts, ids + [f], claim) == TouchingRows(conflicts, ids, claim) +
              if f in conflicts && conflicts[f].Touches(claim) then [f] else []
  {
    assert (ids + [f])[..|ids|] == ids;
  }

  lemma GroupNone(conflicts: map<Id, Conflict>)
    ensures Grouped(map[], conflicts, [])
  {
  }

  lemma GroupStep(byClaim: map<Id, seq<Id>>, conflicts: map<Id, Conflict>, ids: seq<Id>, f: Id)
    requires f in conflicts && conflicts[f].a != conflicts[f].b
    requires Grouped(byClaim, conflicts, ids)
    ensures Grouped(AppendRow(AppendRow(byClaim, conflicts[f].a, f), conflicts[f].b, f), conflicts, ids + [f])
  {
    var after := AppendRow(AppendRow(byClaim, conflicts[f].a, f), conflicts[f].b, f);
    forall c ensures ListFor(after, c) == TouchingRows(conflicts, ids + [f], c) {
      TouchingRowsSnoc(conflicts, ids, f, c);
      assert ListFor(byClaim, c) == TouchingRows(conflicts, ids, c);
    }
  }

  // Each row is listed under both of its claims, by ascending identifier.
  method ConflictsByClaim(conflicts: map<Id, Conflict>) returns (byClaim: map<Id, seq<Id>>)
    requires TwoSided(conflicts)
    ensures forall c :: ListFor(byClaim, c) == Sorted(Incident(conflicts, c))
  {
    hide TouchingRows, AppendRow, Sorted, Incident;
    byClaim := map[];
    var order := Sorted(conflicts.Keys);
    SortedFacts(conflicts.Keys);
    GroupNone(conflicts);
    for n := 0 to |order|
      invariant Grouped(byClaim, conflicts, order[..n])
    {
      var f := order[n];
      assert f in order;
      GroupStep(byClaim, conflicts, order[..n], f);
      byClaim := AppendRow(AppendRow(byClaim, conflicts[f].a, f), conflicts[f].b, f);
      assert order[..n + 1] == order[..n] + [f];
    }
    assert order[..|order|] == order;
    forall c ensures ListFor(byClaim, c) == Sorted(Incident(conflicts, c)) {
      TouchingRowsAreSorted(conflicts, c);
    }
  }

  // The conflict rows of a snapshot, as a list.
  function RowList(conflicts: map<Id, Conflict>, ids: seq<Id>): seq<Conflict>
  {
    if ids == [] then []
    else (if ids[0] in conflicts then [conflicts[ids[0]]] else []) + RowList(conflicts, ids[1..])
  }

  lemma {:induction false} RowListElements(conflicts: map<Id, Conflict>, ids: seq<Id>)
    ensures forall f :: f in ids && f in conflicts ==> conflicts[f] in RowList(conflicts, ids)
    ensures forall row :: row in RowList(conflicts, ids) ==> row in conflicts.Values
  {
    if ids != [] {
      RowListElements(conflicts, ids[1..]);
      assert forall f :: f in ids <==> f == ids[0] || f in ids[1..];
    }
  }

  // The digest from a snapshot already in memory.
  method EvidenceDigestFromLoaded(cites: seq<Id>, claims: map<Id, Claim>, sources: map<Id, Source>,
                                  conflicts: map<Id, Conflict>) returns (digest: Digest)
    requires TwoSided(conflicts)
    ensures digest == DigestIn(sources, claims, conflicts, cites)
  {
    var rows := RowList(conflicts, Sorted(conflicts.Keys));
    assert Elements(rows) == conflicts.Values by {
      SortedFacts(conflicts.Keys);
      RowListElements(conflicts, Sorted(conflicts.Keys));
    }
    BothLoopsAgree(conflicts, rows);
    var evidence := EvidenceClaimIdsFromConflicts(cites, rows);
    var byClaim := ConflictsByClaim(conflicts);
    var images: seq<ClaimImage> := [];
    for n := 0 to |evidence|
      invariant |images| == n
      invariant forall i :: 0 <= i < n ==> images[i] == ClaimImageIn(sources, claims, conflicts, evidence[i])
    {
      var id := evidence[n];
      if id !in claims {
        images := images + [MissingClaim(id)];
      } else {
        SortedFacts(Incident(conflicts, id));
        var incident := ConflictImages(conflicts, ListFor(byClaim, id));
        var image := ImageOfClaim(id, claims[id], ImageOfSource(sources, claims[id].sourceId), incident);
        images := images + [image];
      }
    }
    digest := Digest(cites, evidence, images);
  }

  function FetchClaims(claims: map<Id, Claim>, region: set<Id>): map<Id, Claim>
  {
    map c | c in claims && c in region :: claims[c]
  }

  function FetchConflicts(conflicts: map<Id, Conflict>, region: set<Id>): map<Id, Conflict>
  {
    map f | f in conflicts && Meets(conflicts[f], region) :: conflicts[f]
  }

  ghost predicate TwoSided(conflicts: map<Id, Conflict>)
  {
    forall f :: f in conflicts ==> conflicts[f].a != conflicts[f].b
  }

  lemma FetchedTwoSided(conflicts: map<Id, Conflict>, region: set<Id>)
    requires TwoSided(conflicts)
    ensures TwoSided(FetchConflicts(conflicts, region))
  {
  }

  // The digest from the database: only the evidence claims, their sources and
  // their incident conflicts are fetched. It is the digest of the whole state.
  method EvidenceStateDigest(st: State, cites: seq<Id>) returns (digest: Digest)
    requires TwoSided(st.conflicts)
    ensures digest == EvidenceDigest(st, cites)
  {
    hide DigestIn, EvidenceOf, FetchClaims, FetchConflicts, TwoSided, ImageOfSource;
    var evidence := ProductionEvidenceClaimIds(st.conflicts, cites);
    var region := Elements(evidence);
    var claims := FetchClaims(st.claims, region);
    var sources := FetchSources(st.sources, claims);
    var conflicts := FetchConflicts(st.conflicts, region);
    FetchedTwoSided(st.conflicts, region);
    digest := EvidenceDigestFromLoaded(cites, claims, sources, conflicts);
    NarrowFetchSuffices(st, st.(claims := claims, sources := sources, conflicts := conflicts), cites, region);
  }

  function FetchSources(sources: map<Id, Source>, claims: map<Id, Claim>): (r: map<Id, Source>)
    ensures forall c :: c in claims ==>
              ImageOfSource(r, claims[c].sourceId) == ImageOfSource(sources, claims[c].sourceId)
  {
    map s | s in sources && (exists c :: c in claims.Keys && claims[c].sourceId == s) :: sources[s]
  }

  lemma NarrowFetchSuffices(st: State, narrow: State, cites: seq<Id>, region: set<Id>)
    requires region == Elements(EvidenceOf(st.conflicts, cites))
    requires narrow.claims == FetchClaims(st.claims, region)
    requires forall c :: c in narrow.claims ==> ImageOfSource(narrow.sources, narrow.claims[c].sourceId)
                                                == ImageOfSource(st.sources, narrow.claims[c].sourceId)
    requires narrow.conflicts == FetchConflicts(st.conflicts, region)
    ensures EvidenceDigest(narrow, cites) == EvidenceDigest(st, cites)
  {
    hide EvidenceIds, Neighbours, PreservedEdges, DigestIn;
    ClosureIsLeast(PreservedEdges(st.conflicts), cites, {});
    forall f | f in st.conflicts && Meets(st.conflicts[f], region) && st.conflicts[f].status == PreservedBoth
      ensures st.conflicts[f].a in region && st.conflicts[f].b in region
    {
      ClosureHoldsBothEnds(st.conflicts, cites, f);
    }
    DigestFrame(st, narrow, region, cites);
  }
}
