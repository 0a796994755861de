/**
 * Ordering of rows by a numeric key: Kotlin's stable `sortedBy` and the
 * `ORDER BY` clauses of the database queries, and the ascending row-id
 * order in which SQLite scans a table.
 */
module Sorting {

  /** `s` is ordered by ascending `key`. */
  ghost predicate SortedBy<T>(s: seq<T>, key: T -> int)
  {
    forall i, j :: 0 <= i < j < |s| ==> key(s[i]) <= key(s[j])
  }

  /** Inserts `x` in front of the first element whose key is not smaller. */
  function InsertBy<T>(x: T, s: seq<T>, key: T -> int): seq<T>
    decreases |s|
  {
    if s == [] || key(x) <= key(s[0]) then [x] + s
    else [s[0]] + InsertBy(x, s[1..], key)
  }

  /** Inserting adds exactly the one element. */
  lemma {:induction false} InsertByPermutes<T>(x: T, s: seq<T>, key: T -> int)
    ensures multiset(InsertBy(x, s, key)) == multiset(s) + multiset{x}
    decreases |s|
  {
    if s != [] && key(x) > key(s[0]) {
      assert s == [s[0]] + s[1..];
      InsertByPermutes(x, s[1..], key);
    }
  }

  /** Inserting into an ordered sequence keeps it ordered. */
  lemma {:induction false} InsertBySorted<T>(x: T, s: seq<T>, key: T -> int)
    requires SortedBy(s, key)
    ensures SortedBy(InsertBy(x, s, key), key)
    decreases |s|
  {
    if s != [] && key(x) > key(s[0]) {
      var tail := InsertBy(x, s[1..], key);
      var r := [s[0]] + tail;
      InsertBySorted(x, s[1..], key);
      InsertByPermutes(x, s[1..], key);
      forall j | 0 < j < |r| ensures key(r[0]) <= key(r[j]) {
        assert r[j] == tail[j - 1];
        assert r[j] in multiset(tail);
        if r[j] != x {
          assert r[j] in multiset(s[1..]);
          var k :| 0 <= k < |s[1..]| && s[1..][k] == r[j];
          assert s[k + 1] == r[j];
        }
      }
    }
  }

  /** A stable sort by ascending `key` (insertion sort). */
  function SortBy<T>(s: seq<T>, key: T -> int): (r: seq<T>)
    ensures multiset(r) == multiset(s)
    ensures SortedBy(r, key)
    decreases |s|
  {
    if s == [] then []
    else
      assert s == [s[0]] + s[1..];
      InsertBySorted(s[0], SortBy(s[1..], key), key);
      InsertByPermutes(s[0], SortBy(s[1..], key), key);
      InsertBy(s[0], SortBy(s[1..], key), key)
  }

  /** Sorting keeps every element, with its multiplicity. */
  lemma SortByKeepsElements<T>(s: seq<T>, key: T -> int)
    ensures |SortBy(s, key)| == |s|
    ensures forall x :: x in SortBy(s, key) <==> x in s
    ensures forall x :: multiset(SortBy(s, key))[x] == multiset(s)[x]
  {
    var r := SortBy(s, key);
    assert |r| == |multiset(r)| == |multiset(s)| == |s|;
    forall x ensures x in r <==> x in s {
      assert x in r <==> x in multiset(r);
      assert x in s <==> x in multiset(s);
    }
  }

  /** Inserting before an element that is last by key keeps that element last. */
  lemma {:induction false} InsertByBeforeLast<T>(y: T, t: seq<T>, x: T, key: T -> int)
    requires key(y) <= key(x)
    ensures InsertBy(y, t + [x], key) == InsertBy(y, t, key) + [x]
    decreases |t|
  {
    if t == [] {
      assert InsertBy(y, [x], key) == [y, x];
    } else if key(y) <= key(t[0]) {
      assert (t + [x])[0] == t[0];
      assert InsertBy(y, t + [x], key) == [y] + (t + [x]);
      assert InsertBy(y, t, key) == [y] + t;
    } else {
      assert (t + [x])[0] == t[0] && (t + [x])[1..] == t[1..] + [x];
      InsertByBeforeLast(y, t[1..], x, key);
      assert InsertBy(y, t + [x], key) == [t[0]] + (InsertBy(y, t[1..], key) + [x]);
      assert InsertBy(y, t, key) == [t[0]] + InsertBy(y, t[1..], key);
    }
  }

  /** An element whose key is not below any other's sorts to the end. */
  lemma {:induction false} SortByAppendLast<T>(s: seq<T>, x: T, key: T -> int)
    requires forall y :: y in s ==> key(y) <= key(x)
    ensures SortBy(s + [x], key) == SortBy(s, key) + [x]
    decreases |s|
  {
    if s == [] {
      assert [] + [x] == [x];
      assert SortBy([x], key) == InsertBy(x, SortBy([], key), key);
    } else {
      assert (s + [x])[0] == s[0] && (s + [x])[1..] == s[1..] + [x];
      SortByAppendLast(s[1..], x, key);
      InsertByBeforeLast(s[0], SortBy(s[1..], key), x, key);
    }
  }

  /** The elements of `s` whose key is `k`, in their order in `s`. */
  function WithKey<T>(s: seq<T>, key: T -> int, k: int): seq<T>
    decreases |s|
  {
    if s == [] then []
    else (if key(s[0]) == k then [s[0]] else []) + WithKey(s[1..], key, k)
  }

  lemma {:induction false} InsertByWithKey<T>(x: T, s: seq<T>, key: T -> int, k: int)
    ensures WithKey(InsertBy(x, s, key), key, k) == (if key(x) == k then [x] else []) + WithKey(s, key, k)
    decreases |s|
  {
    var hx := if key(x) == k then [x] else [];
    if s == [] || key(x) <= key(s[0]) {
      var r := [x] + s;
      assert InsertBy(x, s, key) == r;
      assert r[0] == x && r[1..] == s;
    } else {
      var tail := InsertBy(x, s[1..], key);
      var r := [s[0]] + tail;
      var h0 := if key(s[0]) == k then [s[0]] else [];
      assert InsertBy(x, s, key) == r;
      assert r[0] == s[0] && r[1..] == tail;
      assert WithKey(r, key, k) == h0 + WithKey(tail, key, k);
      assert WithKey(s, key, k) == h0 + WithKey(s[1..], key, k);
      InsertByWithKey(x, s[1..], key, k);
      assert h0 == [] || hx == [];
      assert h0 + (hx + WithKey(s[1..], key, k)) == hx + (h0 + WithKey(s[1..], key, k));
    }
  }

  /** Stability: elements with equal keys keep their relative order. */
  lemma {:induction false} SortByStable<T>(s: seq<T>, key: T -> int, k: int)
    ensures WithKey(SortBy(s, key), key, k) == WithKey(s, key, k)
    decreases |s|
  {
    if s != [] {
      SortByStable(s[1..], key, k);
      InsertByWithKey(s[0], SortBy(s[1..], key), key, k);
    }
  }

  /** No two different elements of `s` share a key. */
  ghost predicate DistinctKeys<T>(s: seq<T>, key: T -> int)
  {
    forall x, y :: x in s && y in s && key(x) == key(y) ==> x == y
  }

  /** Two sorted arrangements of the same elements with distinct keys are equal. */
  lemma {:induction false} SortedArrangementUnique<T>(a: seq<T>, b: seq<T>, key: T -> int)
    requires SortedBy(a, key) && SortedBy(b, key)
    requires multiset(a) == multiset(b)
    requires DistinctKeys(a, key)
    ensures a == b
    decreases |a|
  {
    assert |a| == |multiset(a)| == |multiset(b)| == |b|;
    if a != [] {
      SameFirstElement(a, b, key);
      assert a == [a[0]] + a[1..] && b == [b[0]] + b[1..];
      assert multiset(a[1..]) == multiset(a) - multiset{a[0]};
      assert multiset(b[1..]) == multiset(b) - multiset{b[0]};
      TailKeepsOrder(a, key);
      TailKeepsOrder(b, key);
      SortedArrangementUnique(a[1..], b[1..], key);
    }
  }

  lemma TailKeepsOrder<T>(a: seq<T>, key: T -> int)
    requires a != []
    ensures SortedBy(a, key) ==> SortedBy(a[1..], key)
    ensures DistinctKeys(a, key) ==> DistinctKeys(a[1..], key)
  {
    assert forall x :: x in a[1..] ==> x in a;
  }

  lemma SameFirstElement<T>(a: seq<T>, b: seq<T>, key: T -> int)
    requires SortedBy(a, key) && SortedBy(b, key)
    requires multiset(a) == multiset(b)
    requires DistinctKeys(a, key)
    requires a != [] && b != []
    ensures a[0] == b[0]
  {
    assert a[0] in multiset(b) && b[0] in multiset(a);
    var i :| 0 <= i < |b| && b[i] == a[0];
    var j :| 0 <= j < |a| && a[j] == b[0];
    assert key(b[0]) <= key(b[i]);
    assert key(a[0]) <= key(a[j]);
  }

  /** With distinct keys, the sorted result depends only on which elements are given. */
  lemma SortByIgnoresArrivalOrder<T>(s: seq<T>, s': seq<T>, key: T -> int)
    requires multiset(s) == multiset(s')
    requires DistinctKeys(s, key)
    ensures SortBy(s, key) == SortBy(s', key)
  {
    var a, b := SortBy(s, key), SortBy(s', key);
    forall x | x in a ensures x in s {
      assert x in multiset(a);
    }
    SortedArrangementUnique(a, b, key);
  }

  /** The smallest element of a non-empty finite set of integers. */
  function MinOf(s: set<int>): (m: int)
    requires s != {}
    ensures m in s && forall x :: x in s ==> m <= x
  {
    MinExists(s);
    var m :| m in s && forall x :: x in s ==> m <= x;
    m
  }

  /** A non-empty set has an element. */
  lemma Inhabited(s: set<int>)
    requires s != {}
    ensures exists y :: y in s
  {
    if forall y :: y !in s {
      assert false;
    }
  }

  lemma {:induction false} MinExists(s: set<int>)
    requires s != {}
    ensures exists m :: m in s && forall x :: x in s ==> m <= x
    decreases |s|
  {
    Inhabited(s);
    var y :| y in s;
    if s == {y} {
      assert forall x :: x in s ==> y <= x;
    } else {
      var s' := s - {y};
      assert s' != {} by {
        assert s == s' + {y};
      }
      MinExists(s');
      var m :| m in s' && forall x :: x in s' ==> m <= x;
      var least := if y < m then y else m;
      forall x | x in s ensures least <= x {
        if x != y {
          assert x in s';
        }
      }
      assert least in s;
    }
  }

  /** The elements of `s` in strictly ascending order (a table's row-id order). */
  function Ascending(s: set<int>): (r: seq<int>)
    ensures |r| == |s|
    ensures forall x :: x in r <==> x in s
    ensures forall i, j :: 0 <= i < j < |r| ==> r[i] < r[j]
    decreases |s|
  {
    if s == {} then []
    else
      var m := MinOf(s);
      var rest := Ascending(s - {m});
      AscendingCons(s, m, rest);
      [m] + rest
  }

  /** Putting the minimum in front of the ascending rest gives the ascending whole. */
  lemma AscendingCons(s: set<int>, m: int, rest: seq<int>)
    requires m in s && forall x :: x in s ==> m <= x
    requires |rest| == |s - {m}|
    requires forall x :: x in rest <==> x in s - {m}
    requires forall i, j :: 0 <= i < j < |rest| ==> rest[i] < rest[j]
    ensures |[m] + rest| == |s|
    ensures forall x :: x in [m] + rest <==> x in s
    ensures forall i, j :: 0 <= i < j < |[m] + rest| ==> ([m] + rest)[i] < ([m] + rest)[j]
  {
    var r := [m] + rest;
    assert |s - {m}| == |s| - 1;
    forall i, j | 0 <= i < j < |r| ensures r[i] < r[j] {
      assert r[j] == rest[j - 1] && r[j] in rest;
      if i > 0 {
        assert r[i] == rest[i - 1];
      }
    }
  }
}
