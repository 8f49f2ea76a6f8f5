/**
 * Python's `list(set(values))`: duplicates removed, iteration order unspecified.
 */
module Sequences {
  predicate NoDuplicates<T(==)>(s: seq<T>) {
    forall i, j :: 0 <= i < j < |s| ==> s[i] != s[j]
  }

  /**
   * The distinct elements of `xs`, in an order the caller may not rely on:
   * each element is drawn from the remaining set by an arbitrary choice.
   */
  method Dedupe<T(==)>(xs: seq<T>) returns (ys: seq<T>)
    ensures NoDuplicates(ys)
    ensures forall y :: y in ys <==> y in xs
  {
    var pending := set x | x in xs;
    ys := [];
    ghost var seen: set<T> := {};
    while pending != {}
      invariant NoDuplicates(ys)
      invariant seen == set y | y in ys
      invariant seen !! pending
      invariant seen + pending == set x | x in xs
      decreases |pending|
    {
      var y :| y in pending;
      ys := ys + [y];
      seen := seen + {y};
      pending := pending - {y};
    }
    forall y ensures y in ys <==> y in xs {
      assert y in ys <==> y in seen;
    }
  }

  /** The elements `keep` accepts, in order: the append-on-pass body of every scan loop. */
  function Filter<T>(keep: T -> bool, xs: seq<T>): seq<T> {
    if xs == [] then []
    else Filter(keep, xs[..|xs| - 1]) + (if keep(xs[|xs| - 1]) then [xs[|xs| - 1]] else [])
  }

  /** `f` applied to every element, in order. */
  function Map<T, U>(f: T -> U, xs: seq<T>): seq<U> {
    if xs == [] then [] else Map(f, xs[..|xs| - 1]) + [f(xs[|xs| - 1])]
  }

  lemma AppendAssociative<T>(a: seq<T>, b: seq<T>, c: seq<T>)
    ensures (a + b) + c == a + (b + c)
  {
  }

  /** Filters by pointwise-equal tests agree. */
  lemma {:induction false} FilterCongruent<T>(keep: T -> bool, keep': T -> bool, xs: seq<T>)
    requires forall x :: keep(x) == keep'(x)
    ensures Filter(keep, xs) == Filter(keep', xs)
  {
    if xs != [] {
      FilterCongruent(keep, keep', xs[..|xs| - 1]);
    }
  }

  lemma FilterSnoc<T>(keep: T -> bool, xs: seq<T>, x: T)
    ensures Filter(keep, xs + [x]) == Filter(keep, xs) + (if keep(x) then [x] else [])
  {
    assert (xs + [x])[..|xs|] == xs;
  }

  lemma MapSnoc<T, U>(f: T -> U, xs: seq<T>, x: T)
    ensures Map(f, xs + [x]) == Map(f, xs) + [f(x)]
  {
    assert (xs + [x])[..|xs|] == xs;
  }

  lemma {:induction false} FilterAppend<T>(keep: T -> bool, a: seq<T>, b: seq<T>)
    ensures Filter(keep, a + b) == Filter(keep, a) + Filter(keep, b)
  {
    if b == [] {
      assert a + b == a;
    } else {
      var init, last := b[..|b| - 1], b[|b| - 1];
      FilterAppend(keep, a, init);
      assert a + b == (a + init) + [last];
      FilterSnoc(keep, a + init, last);
      FilterSnoc(keep, init, last);
      assert b == init + [last];
    }
  }

  lemma {:induction false} MapAppend<T, U>(f: T -> U, a: seq<T>, b: seq<T>)
    ensures Map(f, a + b) == Map(f, a) + Map(f, b)
  {
    if b == [] {
      assert a + b == a;
    } else {
      var init, last := b[..|b| - 1], b[|b| - 1];
      MapAppend(f, a, init);
      assert a + b == (a + init) + [last];
      MapSnoc(f, a + init, last);
      MapSnoc(f, init, last);
      assert b == init + [last];
    }
  }

  /** An element is kept exactly when it occurs and `keep` accepts it. */
  lemma {:induction false} FilterMembers<T>(keep: T -> bool, xs: seq<T>, x: T)
    ensures x in Filter(keep, xs) <==> x in xs && keep(x)
  {
    if xs != [] {
      var init := xs[..|xs| - 1];
      FilterMembers(keep, init, x);
      assert xs == init + [xs[|xs| - 1]];
    }
  }

  /** A filter that accepts everything is the identity; one that accepts nothing is empty. */
  lemma {:induction false} FilterAllOrNothing<T>(keep: T -> bool, xs: seq<T>, verdict: bool)
    requires forall x :: x in xs ==> keep(x) == verdict
    ensures Filter(keep, xs) == if verdict then xs else []
  {
    if xs != [] {
      var init := xs[..|xs| - 1];
      assert forall x :: x in init ==> x in xs;
      FilterAllOrNothing(keep, init, verdict);
      assert xs == init + [xs[|xs| - 1]];
    }
  }

  /** Filtering a list without duplicates leaves a list without duplicates. */
  lemma {:induction false} FilterNoDuplicates<T>(keep: T -> bool, xs: seq<T>)
    requires NoDuplicates(xs)
    ensures NoDuplicates(Filter(keep, xs))
  {
    if xs != [] {
      var init, last := xs[..|xs| - 1], xs[|xs| - 1];
      assert NoDuplicates(init) by {
        forall i, j | 0 <= i < j < |init| ensures init[i] != init[j] {
          assert init[i] == xs[i] && init[j] == xs[j];
        }
      }
      FilterNoDuplicates(keep, init);
      FilterMembers(keep, init, last);
      assert last !in init by {
        forall i | 0 <= i < |init| ensures init[i] != last {
          assert init[i] == xs[i];
        }
      }
    }
  }

  /** Map preserves length and applies `f` at every index. */
  lemma {:induction false} MapIndex<T, U>(f: T -> U, xs: seq<T>)
    ensures |Map(f, xs)| == |xs|
    ensures forall i :: 0 <= i < |xs| ==> Map(f, xs)[i] == f(xs[i])
  {
    if xs != [] {
      MapIndex(f, xs[..|xs| - 1]);
    }
  }

  /**
   * The kept elements of `xs`, each recorded with its 1-based position: the list an
   * `enumerate` loop builds when it appends `record(x, i + 1)` for every kept x.
   */
  function Numbered<T, R>(keep: T -> bool, record: (T, nat) -> R, xs: seq<T>): seq<R> {
    if xs == [] then []
    else Numbered(keep, record, xs[..|xs| - 1]) + (if keep(xs[|xs| - 1]) then [record(xs[|xs| - 1], |xs|)] else [])
  }

  lemma NumberedSnoc<T, R>(keep: T -> bool, record: (T, nat) -> R, xs: seq<T>, x: T)
    ensures Numbered(keep, record, xs + [x]) == Numbered(keep, record, xs) + (if keep(x) then [record(x, |xs| + 1)] else [])
  {
    assert (xs + [x])[..|xs|] == xs;
  }

  /** A record is in the list exactly when some kept element produced it at its position. */
  lemma {:induction false} NumberedMembers<T, R>(keep: T -> bool, record: (T, nat) -> R, xs: seq<T>, r: R)
    ensures r in Numbered(keep, record, xs) <==> exists i :: 0 <= i < |xs| && keep(xs[i]) && r == record(xs[i], i + 1)
  {
    if xs != [] {
      var init := xs[..|xs| - 1];
      NumberedMembers(keep, record, init, r);
      if r in Numbered(keep, record, init) {
        var i :| 0 <= i < |init| && keep(init[i]) && r == record(init[i], i + 1);
        assert xs[i] == init[i];
      }
      if exists i :: 0 <= i < |xs| && keep(xs[i]) && r == record(xs[i], i + 1) {
        var i :| 0 <= i < |xs| && keep(xs[i]) && r == record(xs[i], i + 1);
        if i < |init| {
          assert init[i] == xs[i];
        }
      }
    }
  }

  /** Every record in the list was made by some element at its 1-based position. */
  lemma {:induction false} NumberedPositions<T, R>(keep: T -> bool, record: (T, nat) -> R, xs: seq<T>, r: R)
    requires r in Numbered(keep, record, xs)
    ensures exists i :: 0 <= i < |xs| && r == record(xs[i], i + 1)
  {
    var init := xs[..|xs| - 1];
    if r in Numbered(keep, record, init) {
      NumberedPositions(keep, record, init, r);
      var i :| 0 <= i < |init| && r == record(init[i], i + 1);
      assert xs[i] == init[i];
    }
  }

  /** When records made at different positions always differ, the list has no duplicates. */
  lemma {:induction false} NumberedNoDuplicates<T, R>(keep: T -> bool, record: (T, nat) -> R, xs: seq<T>)
    requires forall x, i, y, j :: i != j ==> record(x, i) != record(y, j)
    ensures NoDuplicates(Numbered(keep, record, xs))
  {
    if xs != [] {
      var init, last := xs[..|xs| - 1], xs[|xs| - 1];
      NumberedNoDuplicates(keep, record, init);
      var earlier := Numbered(keep, record, init);
      forall k | 0 <= k < |earlier|
        ensures earlier[k] != record(last, |xs|)
      {
        NumberedPositions(keep, record, init, earlier[k]);
      }
    }
  }
}
