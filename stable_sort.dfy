/** Sorting by an integer key the way `Array.prototype.sort` does with a
  * comparator returning `key(a) - key(b)`: ascending and stable. */
module StableSort {

  predicate SortedBy<T>(s: seq<T>, key: T -> int)
  {
    forall i, j :: 0 <= i < j < |s| ==> key(s[i]) <= key(s[j])
  }

  /** The elements whose key is `v`, in order. */
  function WithKey<T>(s: seq<T>, key: T -> int, v: int): (r: seq<T>)
    ensures |r| <= |s|
  {
    if s == [] then []
    else
      var init := WithKey(s[..|s| - 1], key, v);
      if key(s[|s| - 1]) == v then init + [s[|s| - 1]] else init
  }

  /** Places `x` after every element whose key is not above its own. */
  function Insert<T>(t: seq<T>, x: T, key: T -> int): (r: seq<T>)
    ensures multiset(r) == multiset(t) + multiset{x}
  {
    if t == [] then [x]
    else if key(t[|t| - 1]) <= key(x) then t + [x]
    else
      var init := t[..|t| - 1];
      assert t == init + [t[|t| - 1]];
      Insert(init, x, key) + [t[|t| - 1]]
  }

  /** The copy `[...s].sort(cmp)` returns. */
  function SortBy<T>(s: seq<T>, key: T -> int): (r: seq<T>)
    ensures multiset(r) == multiset(s)
  {
    if s == [] then []
    else
      assert s == s[..|s| - 1] + [s[|s| - 1]];
      Insert(SortBy(s[..|s| - 1], key), s[|s| - 1], key)
  }

  lemma {:induction false} InsertSorted<T>(t: seq<T>, x: T, key: T -> int)
    requires SortedBy(t, key)
    ensures SortedBy(Insert(t, x, key), key)
  {
    if t != [] && key(t[|t| - 1]) > key(x) {
      var init := t[..|t| - 1];
      var last := t[|t| - 1];
      assert SortedBy(init, key);
      InsertSorted(init, x, key);
      var u := Insert(init, x, key);
      forall y | y in u
        ensures key(y) <= key(last)
      {
        assert y in multiset(u);
        if y != x {
          assert y in multiset(init);
          var i :| 0 <= i < |init| && init[i] == y;
          assert t[i] == y;
        }
      }
      var r := u + [last];
      forall i, j | 0 <= i < j < |r|
        ensures key(r[i]) <= key(r[j])
      {
        if j == |u| {
          assert r[i] == u[i] && u[i] in u;
        } else {
          assert r[i] == u[i] && r[j] == u[j];
        }
      }
    }
  }

  /** The sorted copy is in ascending key order. */
  lemma {:induction false} SortBySorted<T>(s: seq<T>, key: T -> int)
    ensures SortedBy(SortBy(s, key), key)
  {
    if s != [] {
      SortBySorted(s[..|s| - 1], key);
      InsertSorted(SortBy(s[..|s| - 1], key), s[|s| - 1], key);
    }
  }

  lemma {:induction false} InsertWithKey<T>(t: seq<T>, x: T, key: T -> int, v: int)
    ensures WithKey(Insert(t, x, key), key, v) == WithKey(t, key, v) + (if key(x) == v then [x] else [])
  {
    if t == [] {
      assert WithKey([x], key, v) == WithKey([], key, v) + (if key(x) == v then [x] else []);
    } else if key(t[|t| - 1]) <= key(x) {
      var r := t + [x];
      assert r[..|r| - 1] == t;
    } else {
      var init := t[..|t| - 1];
      var last := t[|t| - 1];
      InsertWithKey(init, x, key, v);
      var r := Insert(init, x, key) + [last];
      assert r[..|r| - 1] == Insert(init, x, key);
      assert WithKey(t, key, v) == WithKey(init, key, v) + (if key(last) == v then [last] else []);
    }
  }

  /** Stability: the elements of any one key keep their relative order. */
  lemma {:induction false} SortByStable<T>(s: seq<T>, key: T -> int, v: int)
    ensures WithKey(SortBy(s, key), key, v) == WithKey(s, key, v)
  {
    if s != [] {
      var init := s[..|s| - 1];
      SortByStable(init, key, v);
      InsertWithKey(SortBy(init, key), s[|s| - 1], key, v);
    }
  }
}
