/** The stable sorts of the HF planner, which order their items by a lexicographic pair of keys. */
module Sorting {

  type Rank = (int, int)

  predicate AtMost(a: Rank, b: Rank) { a.0 < b.0 || (a.0 == b.0 && a.1 <= b.1) }

  ghost predicate Ascending<T(!new)>(xs: seq<T>, rank: T -> Rank) {
    forall i, j :: 0 <= i < j < |xs| ==> AtMost(rank(xs[i]), rank(xs[j]))
  }

  /** `x` in front of the first element that ranks no lower. */
  function Insort<T>(x: T, xs: seq<T>, rank: T -> Rank): seq<T> {
    if xs == [] then [x]
    else if AtMost(rank(x), rank(xs[0])) then [x] + xs
    else [xs[0]] + Insort(x, xs[1..], rank)
  }

  function StableSort<T>(xs: seq<T>, rank: T -> Rank): seq<T> {
    if xs == [] then [] else Insort(xs[0], StableSort(xs[1..], rank), rank)
  }

  lemma {:induction false} InsortAdds<T>(x: T, xs: seq<T>, rank: T -> Rank)
    ensures multiset(Insort(x, xs, rank)) == multiset(xs) + multiset{x}
  {
    if xs == [] {
    } else {
      assert xs == [xs[0]] + xs[1..];
      InsortAdds(x, xs[1..], rank);
    }
  }

  lemma InsortMembers<T>(x: T, xs: seq<T>, rank: T -> Rank)
    ensures forall y :: y in Insort(x, xs, rank) ==> y == x || y in xs
  {
    InsortAdds(x, xs, rank);
    forall y | y in Insort(x, xs, rank)
      ensures y == x || y in xs
    {
      assert y in multiset(Insort(x, xs, rank));
    }
  }

  lemma {:induction false} InsortAscends<T(!new)>(x: T, xs: seq<T>, rank: T -> Rank)
    requires Ascending(xs, rank)
    ensures Ascending(Insort(x, xs, rank), rank)
  {
    if xs != [] && !AtMost(rank(x), rank(xs[0])) {
      InsortAscends(x, xs[1..], rank);
      InsortMembers(x, xs[1..], rank);
      var rest := Insort(x, xs[1..], rank);
      forall i | 0 <= i < |rest|
        ensures AtMost(rank(xs[0]), rank(rest[i]))
      {
        assert rest[i] == x || rest[i] in xs[1..];
      }
    }
  }

  /** The sort yields the same items, each as often, in ascending rank. */
  lemma {:induction false} SortMeans<T(!new)>(xs: seq<T>, rank: T -> Rank)
    ensures multiset(StableSort(xs, rank)) == multiset(xs)
    ensures Ascending(StableSort(xs, rank), rank)
  {
    if xs == [] {
    } else {
      assert xs == [xs[0]] + xs[1..];
      SortMeans(xs[1..], rank);
      InsortAdds(xs[0], StableSort(xs[1..], rank), rank);
      InsortAscends(xs[0], StableSort(xs[1..], rank), rank);
    }
  }

  lemma SortKeepsMembers<T(!new)>(xs: seq<T>, rank: T -> Rank)
    ensures |StableSort(xs, rank)| == |xs|
    ensures forall x :: x in xs <==> x in StableSort(xs, rank)
  {
    var r := StableSort(xs, rank);
    SortMeans(xs, rank);
    assert |multiset(r)| == |multiset(xs)|;
    assert forall x :: (x in xs <==> x in multiset(xs)) && (x in r <==> x in multiset(r));
  }
}
