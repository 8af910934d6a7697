/** Sorting by a caller's comparison. `SortBy` promises only what an unstable library sort promises:
    some permutation of the input, ordered when the comparison is a strict total order on it. */
module Sorting {
  import opened Basics

  ghost predicate TotalOn<T(!new)>(less: (T, T) -> bool, elements: set<T>)
  {
    && (forall x | x in elements :: !less(x, x))
    && (forall x, y | x in elements && y in elements :: x == y || less(x, y) || less(y, x))
    && (forall x, y, z | x in elements && y in elements && z in elements && less(x, y) && less(y, z) :: less(x, z))
  }

  ghost predicate Ordered<T(!new)>(less: (T, T) -> bool, s: seq<T>)
  {
    forall i, j :: 0 <= i < j < |s| ==> s[i] == s[j] || less(s[i], s[j])
  }

  method SortBy<T(!new)>(less: (T, T) -> bool, s: seq<T>) returns (r: seq<T>)
    ensures multiset(r) == multiset(s)
    ensures TotalOn(less, Elements(s)) ==> Ordered(less, r)
  {
    r := [];
    var i := 0;
    while i < |s|
      invariant 0 <= i <= |s|
      invariant multiset(r) == multiset(s[..i])
      invariant TotalOn(less, Elements(s)) ==> Ordered(less, r)
    {
      var k := |r|;
      while 0 < k && less(s[i], r[k - 1])
        invariant 0 <= k <= |r|
        invariant forall j :: k <= j < |r| ==> less(s[i], r[j])
      {
        k := k - 1;
      }
      ghost var before := r;
      if TotalOn(less, Elements(s)) {
        InsertKeepsOrder(less, r, k, s[i], s[..i], s);
      }
      r := r[..k] + [s[i]] + r[k..];
      assert before == before[..k] + before[k..];
      assert s[..i + 1] == s[..i] + [s[i]];
      i := i + 1;
    }
    assert s[..|s|] == s;
  }

  lemma InsertKeepsOrder<T(!new)>(less: (T, T) -> bool, r: seq<T>, k: nat, x: T, done: seq<T>, all: seq<T>)
    requires k <= |r| && x in all && (forall y | y in done :: y in all)
    requires multiset(r) == multiset(done)
    requires TotalOn(less, Elements(all)) && Ordered(less, r)
    requires forall j :: k <= j < |r| ==> less(x, r[j])
    requires k == 0 || !less(x, r[k - 1])
    ensures Ordered(less, r[..k] + [x] + r[k..])
  {
    forall j | 0 <= j < |r| ensures r[j] in Elements(all) {
      assert r[j] in multiset(done);
    }
    forall j | 0 <= j < k ensures r[j] == x || less(r[j], x) {
      assert r[k - 1] in Elements(all) && r[j] in Elements(all) && x in Elements(all);
    }
  }

  lemma SameFirst<T(!new)>(less: (T, T) -> bool, a: seq<T>, b: seq<T>)
    requires multiset(a) == multiset(b) && a != [] && b != []
    requires TotalOn(less, Elements(a)) && Ordered(less, a) && Ordered(less, b)
    ensures a[0] == b[0]
  {
    assert a[0] in multiset(b) && b[0] in multiset(a);
    var i :| 0 <= i < |b| && b[i] == a[0];
    var j :| 0 <= j < |a| && a[j] == b[0];
    assert a[0] in Elements(a) && a[j] in Elements(a);
  }

  /** An ordered arrangement of given elements is unique, so no sort can choose between two. */
  lemma {:induction false} OrderedUnique<T(!new)>(less: (T, T) -> bool, a: seq<T>, b: seq<T>)
    requires multiset(a) == multiset(b)
    requires TotalOn(less, Elements(a))
    requires Ordered(less, a) && Ordered(less, b)
    ensures a == b
  {
    assert |multiset(a)| == |a| && |multiset(b)| == |b|;
    if a != [] {
      SameFirst(less, a, b);
      assert a == [a[0]] + a[1..] && b == [b[0]] + b[1..];
      assert multiset(a[1..]) == multiset(a) - multiset{a[0]} == multiset(b[1..]);
      assert Elements(a[1..]) <= Elements(a);
      OrderedUnique(less, a[1..], b[1..]);
    }
  }
}
