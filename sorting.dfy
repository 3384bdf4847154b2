/** `Array.prototype.sort` with a numeric-difference comparator over keys
    that may be `NaN`, as the stable sort the language prescribes.  A `NaN`
    difference compares as equal. */
module Sorting {
  import opened Wrappers

  /** The comparator `key(a) - key(b)` is negative. */
  predicate Before<T>(key: T -> Option<int>, a: T, b: T)
  {
    key(a).Some? && key(b).Some? && key(a).value < key(b).value
  }

  /** Stable insertion of `x` behind every element it does not precede. */
  function Insert<T>(t: seq<T>, x: T, key: T -> Option<int>): (r: seq<T>)
    ensures |r| == |t| + 1
    ensures multiset(r) == multiset(t) + multiset{x}
  {
    if |t| == 0 || !Before(key, x, t[|t| - 1]) then t + [x]
    else
      assert t == t[..|t| - 1] + [t[|t| - 1]];
      Insert(t[..|t| - 1], x, key) + [t[|t| - 1]]
  }

  /** The sorted list: elements are inserted one by one from the front. */
  function SortBy<T>(s: seq<T>, key: T -> Option<int>): (r: seq<T>)
    ensures |r| == |s|
    ensures multiset(r) == multiset(s)
  {
    if |s| == 0 then []
    else
      assert s == s[..|s| - 1] + [s[|s| - 1]];
      Insert(SortBy(s[..|s| - 1], key), s[|s| - 1], key)
  }

  /** Every element has a key. */
  predicate AllKeyed<T>(s: seq<T>, key: T -> Option<int>)
  {
    forall i :: 0 <= i < |s| ==> key(s[i]).Some?
  }

  /** Keys never decrease along the list. */
  predicate Sorted<T>(s: seq<T>, key: T -> Option<int>)
    requires AllKeyed(s, key)
  {
    forall i, j :: 0 <= i < j < |s| ==> key(s[i]).value <= key(s[j]).value
  }

  /** Inserting below a common upper bound stays below it. */
  lemma {:induction false} InsertBounded<T>(t: seq<T>, x: T, key: T -> Option<int>, bound: int)
    requires AllKeyed(t, key) && key(x).Some? && key(x).value <= bound
    requires forall i :: 0 <= i < |t| ==> key(t[i]).value <= bound
    ensures AllKeyed(Insert(t, x, key), key)
    ensures forall i :: 0 <= i < |t| + 1 ==> key(Insert(t, x, key)[i]).value <= bound
  {
    if |t| > 0 && Before(key, x, t[|t| - 1]) {
      var u := t[..|t| - 1];
      assert forall i :: 0 <= i < |u| ==> u[i] == t[i];
      InsertBounded(u, x, key, bound);
      assert Insert(t, x, key) == Insert(u, x, key) + [t[|t| - 1]];
    } else {
      assert Insert(t, x, key) == t + [x];
    }
  }

  lemma {:induction false} InsertSorted<T>(t: seq<T>, x: T, key: T -> Option<int>)
    requires AllKeyed(t, key) && key(x).Some? && Sorted(t, key)
    ensures AllKeyed(Insert(t, x, key), key) && Sorted(Insert(t, x, key), key)
  {
    var r := Insert(t, x, key);
    if |t| == 0 || !Before(key, x, t[|t| - 1]) {
      assert r == t + [x];
      assert forall i :: 0 <= i < |t| ==> r[i] == t[i];
    } else {
      var u := t[..|t| - 1];
      var last := t[|t| - 1];
      assert forall i :: 0 <= i < |u| ==> u[i] == t[i];
      InsertSorted(u, x, key);
      InsertBounded(u, x, key, key(last).value);
      var v := Insert(u, x, key);
      assert r == v + [last];
      assert forall i :: 0 <= i < |v| ==> r[i] == v[i];
    }
  }

  /** When every element has a key, the result is ordered by key. */
  lemma {:induction false} SortBySorted<T>(s: seq<T>, key: T -> Option<int>)
    requires AllKeyed(s, key)
    ensures AllKeyed(SortBy(s, key), key) && Sorted(SortBy(s, key), key)
  {
    if |s| > 0 {
      var init := s[..|s| - 1];
      assert forall i :: 0 <= i < |init| ==> init[i] == s[i];
      SortBySorted(init, key);
      InsertSorted(SortBy(init, key), s[|s| - 1], key);
    }
  }
}
