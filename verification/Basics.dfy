/** Optional values, results, and the order in which the databases compare text. */
module Basics {

  datatype Option<+T> = None | Some(value: T)

  datatype Result<+T, +E> = Ok(value: T) | Err(error: E)

  /** The service's errors. `Backend` stands for any driver error that is passed through,
      `Exhausted` for the allocation failure after three colliding candidates. */
  datatype Error = NotReady | NotFound | Invalid | IdentityConflict | CommitUnknown | Exhausted | Backend

  /** Byte order on text: the order in which Go compares strings. */
  predicate TextLess(a: string, b: string)
  {
    if b == "" then false
    else if a == "" then true
    else if a[0] != b[0] then a[0] < b[0]
    else TextLess(a[1..], b[1..])
  }

  lemma {:induction false} TextLessIrreflexive(a: string)
    ensures !TextLess(a, a)
  {
    if a != "" {
      TextLessIrreflexive(a[1..]);
    }
  }

  lemma {:induction false} TextLessTotal(a: string, b: string)
    ensures a == b || TextLess(a, b) || TextLess(b, a)
  {
    if a != "" && b != "" && a[0] == b[0] {
      TextLessTotal(a[1..], b[1..]);
      if a[1..] == b[1..] {
        assert a == [a[0]] + a[1..] == [b[0]] + b[1..] == b;
      }
    }
  }

  lemma {:induction false} TextLessTransitive(a: string, b: string, c: string)
    requires TextLess(a, b) && TextLess(b, c)
    ensures TextLess(a, c)
  {
    if a != "" && a[0] == b[0] && b[0] == c[0] {
      TextLessTransitive(a[1..], b[1..], c[1..]);
    }
  }

  /** A subset is no larger. */
  lemma {:induction false} SubsetSize<T>(a: set<T>, b: set<T>)
    requires a <= b
    ensures |a| <= |b|
    decreases a
  {
    if a != {} {
      var x :| x in a;
      SubsetSize(a - {x}, b - {x});
    }
  }

  /** The elements of a sequence as a set. */
  function Elements<T>(s: seq<T>): set<T>
  {
    set x | x in s
  }

  predicate Distinct<T(==)>(s: seq<T>)
  {
    forall i, j :: 0 <= i < j < |s| ==> s[i] != s[j]
  }

  /** A sequence without repetition is as long as its set of elements. */
  lemma {:induction false} DistinctSize<T>(s: seq<T>)
    requires Distinct(s)
    ensures |Elements(s)| == |s|
  {
    if s != [] {
      var last := s[|s| - 1];
      var rest := s[..|s| - 1];
      DistinctSize(rest);
      assert last !in rest;
      assert Elements(s) == Elements(rest) + {last};
    }
  }

  ghost function Only<T>(s: set<T>): (x: T)
    requires |s| == 1
    ensures s == {x}
  {
    var x :| x in s;
    SingletonIs(s, x);
    x
  }

  lemma SingletonIs<T>(s: set<T>, x: T)
    requires |s| == 1 && x in s
    ensures s == {x}
  {
    assert |s - {x}| == 0;
  }

  lemma OnlyMember<T>(s: set<T>, x: T)
    requires |s| == 1 && x in s
    ensures Only(s) == x
  {
    assert Only(s) in s;
  }

  lemma SameElements<T>(a: seq<T>, b: seq<T>)
    requires multiset(a) == multiset(b)
    ensures Elements(a) == Elements(b)
  {
    assert forall x :: x in a <==> x in multiset(a);
    assert forall x :: x in b <==> x in multiset(b);
  }

  lemma OneMoreElement<T>(s: seq<T>, i: nat)
    requires i < |s|
    ensures Elements(s[..i + 1]) == Elements(s[..i]) + {s[i]}
  {
    assert s[..i + 1] == s[..i] + [s[i]];
  }

  lemma SplitDistinct<T(!new)>(s: seq<T>, n: nat)
    requires Distinct(s) && n <= |s|
    ensures Elements(s) - Elements(s[..n]) == Elements(s[n..]) && Distinct(s[n..]) && Elements(s[..n]) <= Elements(s)
  {
    assert s == s[..n] + s[n..];
  }

  lemma {:induction false} DistinctMultiset<T(!new)>(s: seq<T>)
    requires Distinct(s)
    ensures multiset(s) == multiset(Elements(s))
  {
    if s != [] {
      var last := s[|s| - 1];
      var rest := s[..|s| - 1];
      DistinctMultiset(rest);
      assert s == rest + [last];
      assert last !in rest;
      assert Elements(s) == Elements(rest) + {last};
    }
  }
}
