/**
 SQL `ORDER BY ... LIMIT n` over a table whose rows form a finite set.

 `Listing` is the ascending sequence of a set under a strict total order; a page
 of a keyset walk is a prefix of such a listing.
 */
module Ordering {

  ghost predicate StrictOrder<T(!new)>(less: (T, T) -> bool) {
    && (forall x :: !less(x, x))
    && (forall x, y :: x != y ==> less(x, y) || less(y, x))
    && (forall x, y, z :: less(x, y) && less(y, z) ==> less(x, z))
  }

  ghost predicate Ascending<T>(xs: seq<T>, less: (T, T) -> bool) {
    forall i, j :: 0 <= i < j < |xs| ==> less(xs[i], xs[j])
  }

  ghost predicate Least<T>(s: set<T>, less: (T, T) -> bool, m: T) {
    m in s && forall x :: x in s && x != m ==> less(m, x)
  }

  lemma {:induction false} LeastExists<T(!new)>(s: set<T>, less: (T, T) -> bool)
    requires StrictOrder(less) && s != {}
    ensures exists m :: Least(s, less, m)
    decreases |s|
  {
    var x :| x in s;
    var rest := s - {x};
    assert forall y :: y in s <==> y == x || y in rest;
    if rest == {} {
      assert Least(s, less, x);
    } else {
      LeastExists(rest, less);
      var m :| Least(rest, less, m);
      if less(x, m) {
        assert Least(s, less, x);
      } else {
        assert less(m, x);
        assert Least(s, less, m);
      }
    }
  }

  /** The elements of `s`, least first. */
  ghost function Listing<T(!new)>(s: set<T>, less: (T, T) -> bool): (xs: seq<T>)
    requires StrictOrder(less)
    ensures |xs| == |s|
    ensures forall x :: x in s <==> x in xs
    ensures Ascending(xs, less)
    decreases |s|
  {
    if s == {} then [] else
      LeastExists(s, less);
      var m :| Least(s, less, m);
      var rest := Listing(s - {m}, less);
      assert forall i :: 0 <= i < |rest| ==> rest[i] in s - {m};
      [m] + rest
  }

  function Min(a: nat, b: nat): nat { if a < b then a else b }

  lemma {:induction false} SubsetSize<T>(a: set<T>, b: set<T>)
    requires a <= b
    ensures |a| <= |b|
    decreases |a|
  {
    if a != {} {
      var x :| x in a;
      SubsetSize(a - {x}, b - {x});
    }
  }

  /** `ORDER BY ... LIMIT limit`. */
  ghost function Page<T(!new)>(s: set<T>, less: (T, T) -> bool, limit: nat): seq<T>
    requires StrictOrder(less)
  {
    var all := Listing(s, less);
    all[..Min(limit, |all|)]
  }

  lemma PageWithin<T(!new)>(s: set<T>, less: (T, T) -> bool, limit: nat)
    requires StrictOrder(less)
    ensures forall x :: x in Page(s, less, limit) ==> x in s
    ensures Ascending(Page(s, less, limit), less)
    ensures |Page(s, less, limit)| == Min(limit, |s|)
  {
    var all, page := Listing(s, less), Page(s, less, limit);
    assert forall i :: 0 <= i < |page| ==> page[i] == all[i] && all[i] in all;
  }

  /** A page has no gap: everything of the set at or below its last element is in it. */
  lemma PageHasNoGap<T(!new)>(s: set<T>, less: (T, T) -> bool, limit: nat, x: T)
    requires StrictOrder(less)
    requires x in s && x !in Page(s, less, limit)
    ensures |Page(s, less, limit)| == limit
    ensures forall y :: y in Page(s, less, limit) ==> less(y, x)
  {
    var all := Listing(s, less);
    var page := Page(s, less, limit);
    var k :| 0 <= k < |all| && all[k] == x;
    assert forall i :: 0 <= i < |page| ==> page[i] == all[i] && page[i] in page;
    assert k >= |page|;
    forall y | y in page
      ensures less(y, x)
    {
      var j :| 0 <= j < |page| && page[j] == y;
      assert all[j] == y && j < k;
    }
  }

  /** Nothing listed twice, so counting a page counts its rows. */
  lemma AscendingIsDistinct<T(!new)>(xs: seq<T>, less: (T, T) -> bool, i: nat, j: nat)
    requires StrictOrder(less) && Ascending(xs, less)
    requires i < |xs| && j < |xs| && i != j
    ensures xs[i] != xs[j]
  {
    assert less(xs[i], xs[j]) || less(xs[j], xs[i]);
  }

  /** The first element of an ascending sequence is the least of them. */
  lemma FirstIsLeast<T(!new)>(xs: seq<T>, less: (T, T) -> bool, x: T)
    requires StrictOrder(less) && Ascending(xs, less)
    requires x in xs
    ensures x == xs[0] || less(xs[0], x)
  {
    var i :| 0 <= i < |xs| && xs[i] == x;
    assert i == 0 || less(xs[0], xs[i]);
  }

  lemma TailElements<T(!new)>(xs: seq<T>, less: (T, T) -> bool)
    requires StrictOrder(less) && Ascending(xs, less) && xs != []
    ensures Ascending(xs[1..], less)
    ensures forall x :: x in xs[1..] <==> x in xs && x != xs[0]
  {
    forall x | x in xs && x != xs[0]
      ensures x in xs[1..]
    {
      var i :| 0 <= i < |xs| && xs[i] == x;
      assert xs[1..][i - 1] == x;
    }
    assert forall i :: 0 <= i < |xs[1..]| ==> xs[1..][i] == xs[i + 1] && less(xs[0], xs[i + 1]);
  }

  /** Two ascending sequences of the same elements are the same sequence. */
  lemma {:induction false} AscendingUnique<T(!new)>(xs: seq<T>, ys: seq<T>, less: (T, T) -> bool)
    requires StrictOrder(less) && Ascending(xs, less) && Ascending(ys, less)
    requires forall x :: x in xs <==> x in ys
    ensures xs == ys
  {
    assert xs != [] ==> xs[0] in ys;
    assert ys != [] ==> ys[0] in xs;
    if xs != [] {
      FirstIsLeast(xs, less, ys[0]);
      FirstIsLeast(ys, less, xs[0]);
      TailElements(xs, less);
      TailElements(ys, less);
      AscendingUnique(xs[1..], ys[1..], less);
      assert xs == [xs[0]] + xs[1..];
    }
  }
}
