/** Sequences without repetition, the sets of their elements, and the oldest of a set. */
module Sequences {

  function SetOf<T(==)>(xs: seq<T>): set<T> { set x | x in xs }

  predicate Distinct<T(==)>(xs: seq<T>) { forall i, j | 0 <= i < j < |xs| :: xs[i] != xs[j] }

  lemma {:induction false} DistinctSize<T>(xs: seq<T>)
    requires Distinct(xs)
    ensures |SetOf(xs)| == |xs|
  {
    if xs != [] {
      DistinctSize(xs[1..]);
      assert SetOf(xs) == {xs[0]} + SetOf(xs[1..]) && xs[0] !in SetOf(xs[1..]);
    }
  }

  lemma {:induction false} SizesOrdered<T>(xs: set<T>, ys: set<T>)
    requires xs <= ys
    ensures |xs| <= |ys|
    decreases |xs|
  {
    if xs != {} {
      var x :| x in xs;
      SizesOrdered(xs - {x}, ys - {x});
    }
  }

  lemma SplitSize<T>(all: set<T>, part: set<T>)
    requires part <= all
    ensures |all - part| == |all| - |part|
  {
    assert all == part + (all - part);
  }

  // ---------------------------------------------------------------- the oldest few

  /** Nothing outside `done` is older than anything inside. */
  predicate OldestFirst<T(==)>(born: map<T, int>, done: set<T>, all: set<T>) {
    forall x, y | x in done && y in all && y !in done && x in born && y in born :: born[x] <= born[y]
  }

  /** What a query with `take` and `orderBy … asc` may answer: the oldest of `all`, in order, all
      of them when fewer than `take`; ties fall either way. */
  predicate Oldest<T(==)>(born: map<T, int>, all: set<T>, take: nat, found: seq<T>) {
    && Distinct(found) && SetOf(found) <= all && |found| <= take
    && OldestFirst(born, SetOf(found), all)
    && (|found| < take ==> SetOf(found) == all)
    && forall i, j | 0 <= i < j < |found| && found[i] in born && found[j] in born :: born[found[i]] <= born[found[j]]
  }

  /** Some element of a finite, non-empty set is oldest. */
  lemma {:induction false} OldestExists<T>(ids: set<T>, born: map<T, int>)
    requires ids != {} && ids <= born.Keys
    ensures exists x :: x in ids && forall y | y in ids :: born[x] <= born[y]
    decreases |ids|
  {
    var z :| z in ids;
    var rest := ids - {z};
    if rest != {} {
      OldestExists(rest, born);
      var x :| x in rest && forall y | y in rest :: born[x] <= born[y];
      var best := if born[x] <= born[z] then x else z;
      assert forall y | y in ids :: y == z || y in rest;
      assert best in ids && forall y | y in ids :: born[best] <= born[y];
    } else {
      assert ids == {z};
    }
  }

  /** The query itself. */
  method TakeOldest<T(==)>(born: map<T, int>, all: set<T>, take: nat) returns (found: seq<T>)
    requires all <= born.Keys
    ensures Oldest(born, all, take, found)
  {
    found := [];
    var left := all;
    while |found| < take && left != {}
      invariant Distinct(found) && |found| <= take && left <= born.Keys
      invariant SetOf(found) !! left && SetOf(found) + left == all
      invariant forall x, y | x in found && y in left :: x in born && born[x] <= born[y]
      invariant forall i, j | 0 <= i < j < |found| :: found[i] in born && found[j] in born && born[found[i]] <= born[found[j]]
      decreases left
    {
      OldestExists(left, born);
      var next :| next in left && forall y | y in left :: born[next] <= born[y];
      assert next !in found by { assert next !in SetOf(found); }
      assert SetOf(found + [next]) == SetOf(found) + {next};
      found, left := found + [next], left - {next};
    }
    assert OldestFirst(born, SetOf(found), all);
  }
}
