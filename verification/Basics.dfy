// Shared vocabulary: identifiers, optional values, results, and the two list
// idioms the server relies on, sorting and keeping first occurrences.

module Basics {

  // Row identifiers. They stand for the database's string keys in their sort
  // order; nothing depends on more than equality and that total order.
  type Id = nat

  datatype Option<+T> = None | Some(value: T) {
    function GetOr(default: T): T
    {
      if Some? then value else default
    }
  }

  function Elements<T>(xs: seq<T>): (r: set<T>)
  {
    set x | x in xs
  }

  ghost predicate Distinct<T>(xs: seq<T>)
  {
    forall i, j :: 0 <= i < j < |xs| ==> xs[i] != xs[j]
  }

  lemma DistinctConcat<T>(a: seq<T>, b: seq<T>)
    requires Distinct(a) && Distinct(b)
    requires forall x :: x in a ==> x !in b
    ensures Distinct(a + b)
  {
    var c := a + b;
    forall i, j | 0 <= i < j < |c| ensures c[i] != c[j] {
      if i < |a| <= j {
        assert c[i] in a && c[j] in b;
      }
    }
  }

  // ---- Sorting identifiers by a rank, then by identifier ----

  function RankOf(rank: map<Id, int>, x: Id): int
  {
    if x in rank then rank[x] else 0
  }

  predicate Before(rank: map<Id, int>, x: Id, y: Id)
  {
    RankOf(rank, x) < RankOf(rank, y) || (RankOf(rank, x) == RankOf(rank, y) && x < y)
  }

  ghost predicate InOrder(rank: map<Id, int>, xs: seq<Id>)
  {
    forall i, j :: 0 <= i < j < |xs| ==> Before(rank, xs[i], xs[j])
  }

  predicate Least(ids: set<Id>, rank: map<Id, int>, m: Id)
  {
    m in ids && forall x :: x in ids && x != m ==> Before(rank, m, x)
  }

  lemma LeastExists(ids: set<Id>, rank: map<Id, int>)
    requires ids != {}
    ensures exists m :: Least(ids, rank, m)
  {
    var a :| a in ids;
    var rest := ids - {a};
    if rest == {} {
      assert forall x :: x in ids ==> x == a || x in rest;
      assert Least(ids, rank, a);
    } else {
      LeastExists(rest, rank);
      var least :| Least(rest, rank, least);
      LeastOfTwo(ids, rank, a, least);
    }
  }

  lemma LeastOfTwo(ids: set<Id>, rank: map<Id, int>, a: Id, least: Id)
    requires a in ids && Least(ids - {a}, rank, least)
    ensures Least(ids, rank, if Before(rank, a, least) then a else least)
  {
    var m := if Before(rank, a, least) then a else least;
    forall x | x in ids && x != m ensures Before(rank, m, x) {
      assert x == a || x == least || Before(rank, least, x);
    }
  }

  // Ordered by rank, ties by identifier.
  function SortedBy(ids: set<Id>, rank: map<Id, int>): seq<Id>
  {
    if ids == {} then []
    else
      LeastExists(ids, rank);
      var m :| Least(ids, rank, m);
      [m] + SortedBy(ids - {m}, rank)
  }

  function Sorted(ids: set<Id>): seq<Id> { SortedBy(ids, map[]) }

  // Sorting lists exactly the given elements, once each, in order.
  lemma {:induction false} SortedByFacts(ids: set<Id>, rank: map<Id, int>)
    ensures forall x :: x in SortedBy(ids, rank) <==> x in ids
    ensures InOrder(rank, SortedBy(ids, rank))
    ensures Distinct(SortedBy(ids, rank))
  {
    if ids != {} {
      LeastExists(ids, rank);
      var m :| Least(ids, rank, m);
      SortedByFacts(ids - {m}, rank);
      var rest := SortedBy(ids - {m}, rank);
      assert SortedBy(ids, rank) == [m] + rest;
      LeastFirst(ids, rank, m, rest);
    }
  }

  lemma LeastFirst(ids: set<Id>, rank: map<Id, int>, m: Id, rest: seq<Id>)
    requires Least(ids, rank, m) && InOrder(rank, rest)
    requires forall x :: x in rest <==> x in ids - {m}
    ensures forall x :: x in [m] + rest <==> x in ids
    ensures InOrder(rank, [m] + rest) && Distinct([m] + rest)
  {
    hide Before;
    var all := [m] + rest;
    forall i, j | 0 <= i < j < |all| ensures Before(rank, all[i], all[j]) {
      if i == 0 { assert all[j] in rest; } else { assert all[i] == rest[i - 1] && all[j] == rest[j - 1]; }
    }
    BeforeMeansDistinct(rank, all);
  }

  lemma BeforeMeansDistinct(rank: map<Id, int>, xs: seq<Id>)
    requires InOrder(rank, xs)
    ensures Distinct(xs)
  {
    forall i, j | 0 <= i < j < |xs| ensures xs[i] != xs[j] {
      assert Before(rank, xs[i], xs[j]);
    }
  }

  lemma SortedFacts(ids: set<Id>)
    ensures forall x :: x in Sorted(ids) <==> x in ids
    ensures forall i, j :: 0 <= i < j < |Sorted(ids)| ==> Sorted(ids)[i] < Sorted(ids)[j]
    ensures Distinct(Sorted(ids))
  {
    SortedByFacts(ids, map[]);
    var r := Sorted(ids);
    forall i, j | 0 <= i < j < |r| ensures r[i] < r[j] {
      assert Before(map[], r[i], r[j]);
    }
  }

  // Two strictly ordered lists of the same elements are the same list.
  lemma {:induction false} InOrderUnique(rank: map<Id, int>, xs: seq<Id>, ys: seq<Id>)
    requires InOrder(rank, xs) && InOrder(rank, ys)
    requires forall x :: x in xs <==> x in ys
    ensures xs == ys
  {
    assert ys != [] ==> ys[0] in ys;
    assert xs != [] ==> xs[0] in xs;
    if xs != [] {
      assert xs[0] in ys && ys[0] in xs;
      assert xs[0] == ys[0];
      forall x ensures x in xs[1..] <==> x in ys[1..] {
        if x in xs[1..] {
          assert x in xs && Before(rank, xs[0], x);
          assert x in ys;
        }
        if x in ys[1..] {
          assert x in ys && Before(rank, ys[0], x);
          assert x in xs;
        }
      }
      InOrderUnique(rank, xs[1..], ys[1..]);
    }
  }

  // ---- First occurrences, in order ----

  // Each element once, where it first occurs.
  function Dedup<T(==, !new)>(xs: seq<T>): (r: seq<T>)
    ensures forall x :: x in r <==> x in xs
    ensures Distinct(r)
  {
    if xs == [] then []
    else
      var front := xs[..|xs| - 1];
      var last := xs[|xs| - 1];
      assert xs == front + [last];
      if last in Dedup(front) then Dedup(front) else Dedup(front) + [last]
  }

  // Reading further never renumbers what was already seen.
  lemma {:induction false} DedupPrefix<T(!new)>(xs: seq<T>, ys: seq<T>)
    ensures Dedup(xs) <= Dedup(xs + ys)
  {
    if ys == [] {
      assert xs + ys == xs;
    } else {
      var front := ys[..|ys| - 1];
      DedupPrefix(xs, front);
      assert (xs + ys)[..|xs + ys| - 1] == xs + front;
    }
  }

  lemma DedupSnoc<T(!new)>(xs: seq<T>, x: T)
    ensures Dedup(xs + [x]) == if x in Dedup(xs) then Dedup(xs) else Dedup(xs) + [x]
  {
    assert (xs + [x])[..|xs + [x]| - 1] == xs;
  }

  function IndexOf<T(==)>(xs: seq<T>, x: T): (i: nat)
    requires x in xs
    ensures i < |xs| && xs[i] == x
  {
    if xs[0] == x then 0 else 1 + IndexOf(xs[1..], x)
  }

  lemma IndexOfPrefix<T>(xs: seq<T>, ys: seq<T>, x: T)
    requires xs <= ys && x in xs && Distinct(ys)
    ensures x in ys && IndexOf(xs, x) == IndexOf(ys, x)
  {
    assert ys[IndexOf(xs, x)] == x;
  }

  lemma SubsetSize<T>(a: set<T>, b: set<T>)
    requires a <= b
    ensures |a| <= |b|
    ensures |a| == |b| ==> a == b
  {
    assert b == a + (b - a);
    assert |b| == |a| + |b - a|;
    if |a| == |b| { assert b - a == {}; }
  }

  lemma {:induction false} DistinctSize<T>(xs: seq<T>)
    requires Distinct(xs)
    ensures |Elements(xs)| == |xs|
  {
    if xs != [] {
      DistinctSize(xs[1..]);
      assert Elements(xs) == Elements(xs[1..]) + {xs[0]};
    }
  }
}
