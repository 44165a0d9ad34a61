/** Row ids, sorting a set of them by a rank with the id breaking ties, and lists without repeats. */
module Ordering {
  type Id = nat
  type Rank = Id -> nat

  predicate Before(rank: Rank, a: Id, b: Id) {
    rank(a) < rank(b) || (rank(a) == rank(b) && a < b)
  }

  predicate IsFirst(rank: Rank, ids: set<Id>, first: Id) {
    first in ids && forall id :: id in ids && id != first ==> Before(rank, first, id)
  }

  lemma FirstExists(rank: Rank, ids: set<Id>)
    requires ids != {}
    ensures exists first :: IsFirst(rank, ids, first)
  {
    var some :| some in ids;
    var rest := ids - {some};
    if rest == {} {
      assert forall id :: id in ids ==> id == some || id in rest;
      assert IsFirst(rank, ids, some);
    } else {
      FirstExists(rank, rest);
      var least :| IsFirst(rank, rest, least);
      var both := if Before(rank, some, least) then some else least;
      forall id | id in ids && id != both ensures Before(rank, both, id) {
        assert id == some || id in rest;
      }
      assert IsFirst(rank, ids, both);
    }
  }

  function First(rank: Rank, ids: set<Id>): (first: Id)
    requires ids != {}
    ensures IsFirst(rank, ids, first)
  {
    FirstExists(rank, ids);
    var first :| IsFirst(rank, ids, first);
    first
  }

  ghost predicate Sorted(rank: Rank, ids: seq<Id>) {
    forall i, j :: 0 <= i < j < |ids| ==> Before(rank, ids[i], ids[j])
  }

  /** sorted(rows, key=lambda row: (rank, row.id)), as the ids. */
  function SortedBy(rank: Rank, ids: set<Id>): (sorted: seq<Id>)
    ensures Sorted(rank, sorted) && (forall id :: id in sorted <==> id in ids)
  {
    if ids == {} then []
    else
      var first := First(rank, ids);
      [first] + SortedBy(rank, ids - {first})
  }

  predicate Increasing(ids: seq<Id>) {
    forall i, j :: 0 <= i < j < |ids| ==> ids[i] < ids[j]
  }

  /** sorted(rows, key=lambda row: row.id), as the ids. */
  function SortedIds(ids: set<Id>): (sorted: seq<Id>)
    ensures Increasing(sorted) && (forall id :: id in sorted <==> id in ids)
  {
    var sorted := SortedBy(_ => 0, ids);
    assert Increasing(sorted) by {
      assert forall i, j :: 0 <= i < j < |sorted| ==> Before(_ => 0, sorted[i], sorted[j]);
    }
    sorted
  }

  function AddOnce<T(==, !new)>(xs: seq<T>, x: T): (added: seq<T>)
    ensures forall y :: y in added <==> y in xs || y == x
  {
    if x in xs then xs else xs + [x]
  }

  /** list(dict.fromkeys(xs)), of the first `n`: each value once, where it first appeared. */
  function Distinct<T(==, !new)>(xs: seq<T>, n: nat): (kept: seq<T>)
    requires n <= |xs|
    ensures forall x :: x in kept <==> x in xs[..n]
  {
    if n == 0 then []
    else
      assert xs[..n] == xs[..n - 1] + [xs[n - 1]];
      AddOnce(Distinct(xs, n - 1), xs[n - 1])
  }

  ghost predicate NoRepeats<T(!new)>(xs: seq<T>) {
    forall i, j :: 0 <= i < j < |xs| ==> xs[i] != xs[j]
  }

  lemma {:induction false} DistinctHasNoRepeats<T(!new)>(xs: seq<T>, n: nat)
    requires n <= |xs|
    ensures NoRepeats(Distinct(xs, n))
  {
    if n > 0 {
      DistinctHasNoRepeats(xs, n - 1);
    }
  }
}
