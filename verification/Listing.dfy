/** Lists of a finite set, tables in key order, and multisets of rows. */
module Listing {
  import opened Basics
  import opened Sorting

  ghost predicate Lists<T(!new)>(rows: seq<T>, members: set<T>)
  {
    Distinct(rows) && Elements(rows) == members
  }

  lemma ListsOneMore<T(!new)>(rows: seq<T>, members: set<T>, x: T)
    requires Lists(rows, members) && x !in members
    ensures Lists(rows + [x], members + {x})
  {
    assert x !in rows;
  }

  lemma ListsSize<T(!new)>(rows: seq<T>, members: set<T>)
    requires Lists(rows, members)
    ensures |rows| == |members|
    ensures |rows| == 1 ==> rows[0] == Only(members)
  {
    DistinctSize(rows);
    if |rows| == 1 {
      OnlyMember(members, rows[0]);
    }
  }

  lemma MultisetLists<T(!new)>(s: seq<T>, members: set<T>)
    requires multiset(s) == multiset(members)
    ensures Lists(s, members)
  {
    forall i, j | 0 <= i < j < |s|
      ensures s[i] != s[j]
    {
      assert s == s[..i] + [s[i]] + s[i + 1..j] + [s[j]] + s[j + 1..];
      assert s[i] == s[j] ==> multiset(s)[s[i]] >= 2;
    }
    assert forall x :: x in s <==> x in multiset(s);
  }

  lemma ListsSame<T(!new)>(a: seq<T>, b: seq<T>, members: set<T>)
    requires Lists(a, members) && Lists(b, members)
    ensures multiset(a) == multiset(b)
  {
    DistinctMultiset(a);
    DistinctMultiset(b);
  }

  lemma SortLists<T(!new)>(a: seq<T>, b: seq<T>, members: set<T>)
    requires Lists(a, members) && multiset(a) == multiset(b)
    ensures Lists(b, members)
  {
    SameElements(a, b);
    DistinctMultiset(a);
    forall i, j | 0 <= i < j < |b|
      ensures b[i] != b[j]
    {
      assert b == b[..i] + [b[i]] + b[i + 1..j] + [b[j]] + b[j + 1..];
      assert b[i] == b[j] ==> multiset(b)[b[i]] >= 2;
    }
  }

  lemma PermutedIds(a: seq<nat>, b: seq<nat>)
    requires multiset(a) == multiset(b)
    ensures |a| == |b| && Elements(a) == Elements(b) && (Distinct(a) ==> Distinct(b)) && forall x :: x in a <==> x in b
  {
    assert |multiset(a)| == |a| && |multiset(b)| == |b|;
    assert forall x :: x in a <==> x in multiset(a);
    assert forall x :: x in b <==> x in multiset(b);
    if Distinct(a) {
      SortLists(a, b, Elements(a));
    }
  }

  /** Sorting keeps the members of a list. */
  method SortList<T(!new)>(less: (T, T) -> bool, s: seq<T>, ghost members: set<T>) returns (r: seq<T>)
    requires Lists(s, members)
    ensures Lists(r, members) && (TotalOn(less, members) ==> Ordered(less, r))
  {
    r := SortBy(less, s);
    SortLists(s, r, members);
  }

  predicate Below(a: nat, b: nat) { a < b }

  lemma BelowIsTotal(s: set<nat>)
    ensures TotalOn(Below, s)
  {
  }

  /** `SELECT ... ORDER BY id`: every key once, in increasing order. */
  method KeysInOrder(keys: set<nat>) returns (r: seq<nat>)
    ensures Lists(r, keys)
    ensures forall i, j :: 0 <= i < j < |r| ==> r[i] < r[j]
  {
    var listed: seq<nat> := [];
    var rest := keys;
    while rest != {}
      invariant rest <= keys && Lists(listed, keys - rest)
    {
      var k :| k in rest;
      assert k !in listed by {
        assert k !in Elements(listed);
      }
      assert keys - (rest - {k}) == keys - rest + {k};
      rest := rest - {k};
      listed := listed + [k];
    }
    assert keys - rest == keys;
    BelowIsTotal(keys);
    r := SortList(Below, listed, keys);
  }

  /** How often each value occurs among the rows of a table. */
  ghost function KeysWith<R(!new), A(!new)>(table: map<nat, R>, view: R -> A, a: A): set<nat>
  {
    set i | i in table && view(table[i]) == a
  }

  /** The rows of a table are, up to order, these values. */
  ghost predicate Holds<R(!new), A(!new)>(table: map<nat, R>, view: R -> A, values: seq<A>)
  {
    forall a :: |KeysWith(table, view, a)| == multiset(values)[a]
  }

  lemma HoldsNothing<R(!new), A(!new)>(view: R -> A)
    ensures Holds(map[], view, [])
  {
  }

  lemma OneMoreKey<R(!new), A(!new)>(table: map<nat, R>, view: R -> A, a: A, id: nat, row: R)
    requires id !in table
    ensures |KeysWith(table[id := row], view, a)| == |KeysWith(table, view, a)| + (if view(row) == a then 1 else 0)
  {
    assert KeysWith(table[id := row], view, a) == KeysWith(table, view, a) + (if view(row) == a then {id} else {});
  }

  lemma HoldsOneMore<R(!new), A(!new)>(table: map<nat, R>, view: R -> A, values: seq<A>, id: nat, row: R)
    requires Holds(table, view, values) && id !in table
    ensures Holds(table[id := row], view, values + [view(row)])
  {
    hide KeysWith;
    var next := table[id := row];
    forall a
      ensures |KeysWith(next, view, a)| == multiset(values + [view(row)])[a]
    {
      OneMoreKey(table, view, a, id, row);
    }
  }

  /** Reading the rows in any order gives the same multiset. */
  lemma {:induction false} HoldsReading<R(!new), A(!new)>(table: map<nat, R>, view: R -> A, keys: seq<nat>,
                                                          values: seq<A>)
    requires Lists(keys, table.Keys) && |values| == |keys|
    requires forall k :: 0 <= k < |keys| ==> keys[k] in table && values[k] == view(table[keys[k]])
    ensures Holds(table, view, values)
  {
    if keys == [] {
      assert table.Keys == Elements(keys) == {};
      assert table == map[];
      HoldsNothing(view);
    } else {
      var n := |keys| - 1;
      var last := keys[n];
      var rest := table - {last};
      assert last in Elements(keys);
      assert rest.Keys == Elements(keys[..n]);
      HoldsReading(rest, view, keys[..n], values[..n]);
      HoldsOneMore(rest, view, values[..n], last, table[last]);
      assert rest[last := table[last]] == table;
      assert values == values[..n] + [values[n]];
    }
  }

  /** Two readings of one table are permutations of each other. */
  lemma HoldsUnique<R(!new), A(!new)>(table: map<nat, R>, view: R -> A, a: seq<A>, b: seq<A>)
    requires Holds(table, view, a)
    ensures Holds(table, view, b) <==> multiset(a) == multiset(b)
  {
    if Holds(table, view, b) {
      assert forall x :: multiset(a)[x] == |KeysWith(table, view, x)| == multiset(b)[x];
    }
  }
}
