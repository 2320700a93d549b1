// Append-only hash chains: one row binds its content, its own identifier and
// the stored hash of the row before it. A hash is an injective, well-founded
// constructor; a stored hash column may also hold any foreign text.

module Chains {
  import opened Basics

  datatype Hash<C> =
    | Link(prev: Option<Hash<C>>, id: Id, content: C)
    | Foreign(text: string)

  datatype Row<C> = Row(id: Id, content: C, prev: Option<Hash<C>>, hash: Hash<C>)

  datatype Issue<C> =
    | PreviousMismatch(id: Id, expectedPrev: Option<Hash<C>>, actualPrev: Option<Hash<C>>)
    | HashMismatch(id: Id, expectedHash: Hash<C>, actualHash: Hash<C>)

  datatype Report<C> = Report(ok: bool, checked: nat, root: Option<Hash<C>>,
                              members: seq<(Id, Hash<C>)>, issues: seq<Issue<C>>)

  function Root<C>(rows: seq<Row<C>>): Option<Hash<C>>
  {
    if rows == [] then None else Some(rows[|rows| - 1].hash)
  }

  ghost predicate LinkedAt<C>(rows: seq<Row<C>>, i: nat)
    requires i < |rows|
  {
    && rows[i].prev == Root(rows[..i])
    && rows[i].hash == Link(Root(rows[..i]), rows[i].id, rows[i].content)
  }

  ghost predicate Linked<C>(rows: seq<Row<C>>)
  {
    forall i :: 0 <= i < |rows| ==> LinkedAt(rows, i)
  }

  function NextRow<C>(rows: seq<Row<C>>, id: Id, content: C): Row<C>
  {
    Row(id, content, Root(rows), Link(Root(rows), id, content))
  }

  // The identifiers of the rows that break the chain.
  ghost function Broken<C>(rows: seq<Row<C>>, n: nat): (ids: set<Id>)
    requires n <= |rows|
    ensures ids == {} <==> forall i :: 0 <= i < n ==> LinkedAt(rows, i)
  {
    if n == 0 then {}
    else Broken(rows, n - 1) + if LinkedAt(rows, n - 1) then {} else {rows[n - 1].id}
  }

  function Reported<C>(issues: seq<Issue<C>>): (ids: set<Id>)
    ensures ids == {} <==> issues == []
  {
    if issues == [] then {} else Reported(issues[..|issues| - 1]) + {issues[|issues| - 1].id}
  }

  lemma ReportedSnoc<C>(issues: seq<Issue<C>>, issue: Issue<C>)
    ensures Reported(issues + [issue]) == Reported(issues) + {issue.id}
  {
    assert (issues + [issue])[..|issues|] == issues;
  }

  // The verifier walks the rows once, carrying the stored hash of the row
  // before; it reports a row exactly when that row breaks the chain.
  method VerifyChain<C(==)>(rows: seq<Row<C>>) returns (report: Report<C>)
    ensures report.ok <==> Linked(rows)
    ensures report.ok <==> report.issues == []
    ensures Reported(report.issues) == Broken(rows, |rows|)
    ensures report.checked == |rows|
    ensures report.root == Root(rows)
    ensures report.members == Members(rows)
  {
    var issues: seq<Issue<C>> := [];
    var previous: Option<Hash<C>> := None;
    for n := 0 to |rows|
      invariant previous == Root(rows[..n])
      invariant Reported(issues) == Broken(rows, n)
    {
      var row := rows[n];
      if row.prev != previous {
        ReportedSnoc(issues, PreviousMismatch(row.id, previous, row.prev));
        issues := issues + [PreviousMismatch(row.id, previous, row.prev)];
      }
      var expected := Link(previous, row.id, row.content);
      if row.hash != expected {
        ReportedSnoc(issues, HashMismatch(row.id, expected, row.hash));
        issues := issues + [HashMismatch(row.id, expected, row.hash)];
      }
      previous := Some(row.hash);
    }
    assert rows[..|rows|] == rows;
    report := Report(issues == [], |rows|, previous, Members(rows), issues);
  }

  // The ordered member proof that an external checkpoint signs.
  function Members<C>(rows: seq<Row<C>>): (r: seq<(Id, Hash<C>)>)
    ensures |r| == |rows|
  {
    seq(|rows|, i requires 0 <= i < |rows| => (rows[i].id, rows[i].hash))
  }

  lemma AppendStaysLinked<C>(rows: seq<Row<C>>, id: Id, content: C)
    requires Linked(rows)
    ensures Linked(rows + [NextRow(rows, id, content)])
    ensures Root(rows + [NextRow(rows, id, content)]) == Some(Link(Root(rows), id, content))
  {
    var longer := rows + [NextRow(rows, id, content)];
    forall i | 0 <= i < |longer| ensures LinkedAt(longer, i) {
      if i < |rows| {
        assert LinkedAt(rows, i);
        assert longer[..i] == rows[..i];
      } else {
        assert longer[..i] == rows;
      }
    }
  }

  lemma PrefixLinked<C>(rows: seq<Row<C>>, n: nat)
    requires Linked(rows) && n <= |rows|
    ensures Linked(rows[..n])
  {
    forall i | 0 <= i < n ensures LinkedAt(rows[..n], i) {
      assert LinkedAt(rows, i);
      assert rows[..n][..i] == rows[..i];
    }
  }

  // Two histories that verify and share a root are one and the same history.
  lemma {:induction false} SameRootSameHistory<C>(a: seq<Row<C>>, b: seq<Row<C>>)
    requires Linked(a) && Linked(b)
    requires Root(a) == Root(b)
    ensures a == b
  {
    if a != [] && b != [] {
      var m, n := |a| - 1, |b| - 1;
      assert LinkedAt(a, m) && LinkedAt(b, n);
      PrefixLinked(a, m);
      PrefixLinked(b, n);
      SameRootSameHistory(a[..m], b[..n]);
      assert a == a[..m] + [a[m]] && b == b[..n] + [b[n]];
    }
  }

  // One stored hash fixes its row, its position and everything before it.
  lemma HashPinsPrefix<C>(a: seq<Row<C>>, i: nat, b: seq<Row<C>>, j: nat)
    requires Linked(a) && Linked(b) && i < |a| && j < |b|
    requires a[i].hash == b[j].hash
    ensures i == j && a[..i + 1] == b[..j + 1]
  {
    PrefixLinked(a, i + 1);
    PrefixLinked(b, j + 1);
    SameRootSameHistory(a[..i + 1], b[..j + 1]);
  }

  // Any edit, reorder, insertion or deletion is reported or moves the root; and
  // up to the last row whose stored hash was kept, it is always reported.
  lemma TamperingShows<C>(rows: seq<Row<C>>, tampered: seq<Row<C>>)
    requires Linked(rows)
    requires tampered != rows
    ensures !Linked(tampered) || Root(tampered) != Root(rows)
    ensures forall i, j :: (0 <= i < |tampered| && 0 <= j < |rows| && tampered[i].hash == rows[j].hash &&
              tampered[..i + 1] != rows[..j + 1]) ==> !Linked(tampered)
  {
    if Linked(tampered) {
      if Root(tampered) == Root(rows) { SameRootSameHistory(tampered, rows); }
      forall i, j | 0 <= i < |tampered| && 0 <= j < |rows| && tampered[i].hash == rows[j].hash
        ensures tampered[..i + 1] == rows[..j + 1]
      {
        HashPinsPrefix(tampered, i, rows, j);
      }
    }
  }

  // What the chain alone cannot see: cutting rows off the end verifies, with
  // another root. This is why a checkpoint is kept outside the database.
  lemma TruncationVerifiesWithAnotherRoot<C>(rows: seq<Row<C>>, n: nat)
    requires Linked(rows) && n < |rows|
    ensures Linked(rows[..n]) && Root(rows[..n]) != Root(rows)
  {
    PrefixLinked(rows, n);
    if Root(rows[..n]) == Root(rows) { SameRootSameHistory(rows[..n], rows); }
  }
}
