/** SQL aggregates over a finite set of rows: SUM does not depend on the order rows arrive in. */
module Sums {

  ghost function SumOver<T(!new)>(s: set<T>, f: T -> int): int
    decreases |s|
  {
    if s == {} then 0 else
      var x :| x in s;
      f(x) + SumOver(s - {x}, f)
  }

  /** Any row may be added last. */
  lemma {:induction false} SumRemove<T(!new)>(s: set<T>, f: T -> int, x: T)
    requires x in s
    ensures SumOver(s, f) == f(x) + SumOver(s - {x}, f)
    decreases |s|
  {
    var y :| y in s && SumOver(s, f) == f(y) + SumOver(s - {y}, f);
    if y != x {
      SumRemove(s - {y}, f, x);
      SumRemove(s - {x}, f, y);
      assert s - {y} - {x} == s - {x} - {y};
    }
  }

  lemma SumOfUnionRemoves<T(!new)>(a: set<T>, b: set<T>, f: T -> int, x: T)
    requires a !! b && x in a
    ensures SumOver(a + b, f) == f(x) + SumOver((a - {x}) + b, f)
  {
    SumRemove(a + b, f, x);
    assert a + b - {x} == (a - {x}) + b;
  }

  lemma {:induction false} SumUnion<T(!new)>(a: set<T>, b: set<T>, f: T -> int)
    requires a !! b
    ensures SumOver(a + b, f) == SumOver(a, f) + SumOver(b, f)
    decreases |a|
  {
    if a == {} {
      assert a + b == b;
    } else {
      var x :| x in a;
      SumUnion(a - {x}, b, f);
      SumRemove(a, f, x);
      SumOfUnionRemoves(a, b, f, x);
    }
  }

  lemma {:induction false} SumSame<T(!new)>(s: set<T>, f: T -> int, g: T -> int)
    requires forall x :: x in s ==> f(x) == g(x)
    ensures SumOver(s, f) == SumOver(s, g)
    decreases |s|
  {
    if s != {} {
      var x :| x in s;
      SumSame(s - {x}, f, g);
      SumRemove(s, f, x);
      SumRemove(s, g, x);
    }
  }

  lemma {:induction false} SumZero<T(!new)>(s: set<T>, f: T -> int)
    requires forall x :: x in s ==> f(x) == 0
    ensures SumOver(s, f) == 0
    decreases |s|
  {
    if s != {} {
      var x :| x in s;
      SumZero(s - {x}, f);
      SumRemove(s, f, x);
    }
  }

  /** The rows of one group of a GROUP BY. */
  function Group<T, G(==)>(s: set<T>, key: T -> G, g: G): set<T> { set x | x in s && key(x) == g }

  ghost function GroupSums<T(!new), G(!new)>(s: set<T>, key: T -> G, f: T -> int): G -> int {
    g => SumOver(Group(s, key, g), f)
  }

  ghost function GroupSizes<T(!new), G(!new)>(s: set<T>, key: T -> G): G -> int {
    g => |Group(s, key, g)|
  }

  /** GROUP BY keeps everything: per-group sums over all groups add up to the whole. */
  lemma {:induction false} SumByGroup<T(!new), G(!new)>(s: set<T>, groups: set<G>, key: T -> G, f: T -> int)
    requires forall x :: x in s ==> key(x) in groups
    ensures SumOver(groups, GroupSums(s, key, f)) == SumOver(s, f)
    decreases |groups|
  {
    if groups == {} {
      assert s == {};
    } else {
      var g :| g in groups;
      var here, rest := Group(s, key, g), s - Group(s, key, g);
      SumByGroup(rest, groups - {g}, key, f);
      SumUnion(here, rest, f);
      assert here + rest == s;
      OtherGroupsStay(s, groups - {g}, key, f, g);
      SumRemove(groups, GroupSums(s, key, f), g);
    }
  }

  lemma OtherGroupsStay<T(!new), G(!new)>(s: set<T>, others: set<G>, key: T -> G, f: T -> int, g: G)
    requires g !in others
    ensures SumOver(others, GroupSums(s, key, f)) == SumOver(others, GroupSums(s - Group(s, key, g), key, f))
  {
    var rest := s - Group(s, key, g);
    forall k | k in others
      ensures GroupSums(s, key, f)(k) == GroupSums(rest, key, f)(k)
    {
      assert Group(s, key, k) == Group(rest, key, k);
    }
    SumSame(others, GroupSums(s, key, f), GroupSums(rest, key, f));
  }

  lemma CountByGroup<T(!new), G(!new)>(s: set<T>, groups: set<G>, key: T -> G)
    requires forall x :: x in s ==> key(x) in groups
    ensures SumOver(groups, GroupSizes(s, key)) == |s|
  {
    var one := (x: T) => 1;
    SumByGroup(s, groups, key, one);
    CountIsSum(s, one);
    forall g | g in groups
      ensures GroupSizes(s, key)(g) == GroupSums(s, key, one)(g)
    {
      CountIsSum(Group(s, key, g), one);
    }
    SumSame(groups, GroupSizes(s, key), GroupSums(s, key, one));
  }

  lemma {:induction false} CountIsSum<T(!new)>(s: set<T>, f: T -> int)
    requires forall x :: x in s ==> f(x) == 1
    ensures SumOver(s, f) == |s|
    decreases |s|
  {
    if s != {} {
      var x :| x in s;
      CountIsSum(s - {x}, f);
      SumRemove(s, f, x);
    }
  }
}
