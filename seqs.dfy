/** `Array.prototype.filter`, counting and summing with `reduce`, over
    sequences, with the facts the list views rely on: a filter keeps exactly
    the matching elements in their original order, and complementary
    filters partition the list. */
module Seqs {

  /** `s.filter(p)`. */
  function Filter<T>(s: seq<T>, p: T -> bool): (r: seq<T>)
    ensures |r| <= |s|
    ensures forall i :: 0 <= i < |r| ==> p(r[i])
    ensures multiset(r) <= multiset(s)
  {
    if |s| == 0 then []
    else
      assert s == [s[0]] + s[1..];
      (if p(s[0]) then [s[0]] else []) + Filter(s[1..], p)
  }

  /** An element survives the filter exactly when it is in the sequence and
      satisfies the predicate. */
  lemma {:induction false} FilterMembership<T>(s: seq<T>, p: T -> bool, x: T)
    ensures x in Filter(s, p) <==> x in s && p(x)
  {
    if |s| > 0 {
      FilterMembership(s[1..], p, x);
      assert s == [s[0]] + s[1..];
    }
  }

  /** `s.filter(p).length`. */
  function Count<T>(s: seq<T>, p: T -> bool): (n: nat)
    ensures n <= |s|
  {
    |Filter(s, p)|
  }

  /** `s.reduce((sum, x) => sum + f(x), 0)`. */
  function Sum<T>(s: seq<T>, f: T -> real): real
  {
    if |s| == 0 then 0.0 else f(s[0]) + Sum(s[1..], f)
  }

  /** `a` is `b` with some elements left out and the rest in order. */
  ghost predicate IsSubsequence<T>(a: seq<T>, b: seq<T>)
  {
    if |a| == 0 then true
    else if |b| == 0 then false
    else if a[0] == b[0] then IsSubsequence(a[1..], b[1..])
    else IsSubsequence(a, b[1..])
  }

  /** A filter keeps the surviving elements in their original order. */
  lemma {:induction false} FilterIsSubsequence<T>(s: seq<T>, p: T -> bool)
    ensures IsSubsequence(Filter(s, p), s)
  {
    if |s| > 0 {
      FilterIsSubsequence(s[1..], p);
      if !p(s[0]) {
        var rest := Filter(s[1..], p);
        assert Filter(s, p) == rest;
        SkipHead(rest, s);
      } else {
        assert Filter(s, p)[1..] == Filter(s[1..], p);
      }
    }
  }

  /** Dropping the head of the longer sequence keeps a subsequence relation
      whenever it held against the tail. */
  lemma {:induction false} SkipHead<T>(a: seq<T>, b: seq<T>)
    requires |b| > 0 && IsSubsequence(a, b[1..])
    ensures IsSubsequence(a, b)
    decreases |a| + |b|
  {
    if |a| > 0 && a[0] == b[0] {
      if |b| > 1 {
        SubsequenceDropHead(a, b[1..]);
      }
    }
  }

  /** Leaving out the first element of a subsequence keeps it a subsequence. */
  lemma {:induction false} SubsequenceDropHead<T>(a: seq<T>, b: seq<T>)
    requires |a| > 0 && IsSubsequence(a, b)
    ensures IsSubsequence(a[1..], b)
    decreases |a| + |b|
  {
    assert |b| > 0;
    if a[0] == b[0] {
      if |a| > 1 {
        SkipHead(a[1..], b);
      } else {
      }
    } else {
      SubsequenceDropHead(a, b[1..]);
      SkipHead(a[1..], b);
    }
  }

  /** A predicate that holds of every element filters nothing out. */
  lemma {:induction false} FilterKeepsAll<T>(s: seq<T>, p: T -> bool)
    requires forall x :: x in s ==> p(x)
    ensures Filter(s, p) == s
  {
    if |s| > 0 {
      FilterKeepsAll(s[1..], p);
      assert s == [s[0]] + s[1..];
    }
  }

  /** A predicate that holds of no element filters everything out. */
  lemma {:induction false} FilterKeepsNone<T>(s: seq<T>, p: T -> bool)
    requires forall i :: 0 <= i < |s| ==> !p(s[i])
    ensures Filter(s, p) == []
  {
    if |s| > 0 {
      assert forall i :: 0 <= i < |s[1..]| ==> s[1..][i] == s[i + 1];
      FilterKeepsNone(s[1..], p);
    }
  }

  /** Filtering a sequence with a new element at the front. */
  lemma FilterCons<T>(x: T, s: seq<T>, p: T -> bool)
    ensures Filter([x] + s, p) == (if p(x) then [x] else []) + Filter(s, p)
  {
    assert ([x] + s)[1..] == s;
  }

  /** Filtering distributes over concatenation. */
  lemma {:induction false} FilterConcat<T>(a: seq<T>, b: seq<T>, p: T -> bool)
    ensures Filter(a + b, p) == Filter(a, p) + Filter(b, p)
  {
    if |a| == 0 {
      assert a + b == b;
    } else {
      var h := if p(a[0]) then [a[0]] else [];
      assert (a + b)[0] == a[0];
      assert (a + b)[1..] == a[1..] + b;
      FilterConcat(a[1..], b, p);
      assert Filter(a + b, p) == h + Filter(a[1..] + b, p);
      assert Filter(a, p) == h + Filter(a[1..], p);
    }
  }

  /** When `p`, `q` and `r` sort every element into exactly one of three
      groups, the group sizes add up to the length. */
  lemma {:induction false} ThreeWayCount<T>(s: seq<T>, p: T -> bool, q: T -> bool, r: T -> bool)
    requires forall x :: (if p(x) then 1 else 0) + (if q(x) then 1 else 0) + (if r(x) then 1 else 0) == 1
    ensures Count(s, p) + Count(s, q) + Count(s, r) == |s|
  {
    if |s| > 0 {
      ThreeWayCount(s[1..], p, q, r);
      FilterStep(s, p, x => 0.0);
      FilterStep(s, q, x => 0.0);
      FilterStep(s, r, x => 0.0);
    }
  }

  /** When `p`, `q` and `r` sort every element into exactly one of three
      groups, the group sums add up to the sum of the whole. */
  lemma {:induction false} ThreeWaySum<T>(s: seq<T>, p: T -> bool, q: T -> bool, r: T -> bool, f: T -> real)
    requires forall x :: (if p(x) then 1 else 0) + (if q(x) then 1 else 0) + (if r(x) then 1 else 0) == 1
    ensures Sum(Filter(s, p), f) + Sum(Filter(s, q), f) + Sum(Filter(s, r), f) == Sum(s, f)
  {
    if |s| > 0 {
      ThreeWaySum(s[1..], p, q, r, f);
      FilterStep(s, p, f);
      FilterStep(s, q, f);
      FilterStep(s, r, f);
      assert Sum(s, f) == f(s[0]) + Sum(s[1..], f);
    }
  }

  /** One step of a filter: the head's contribution to size and sum. */
  lemma FilterStep<T>(s: seq<T>, p: T -> bool, f: T -> real)
    requires |s| > 0
    ensures |Filter(s, p)| == (if p(s[0]) then 1 else 0) + |Filter(s[1..], p)|
    ensures Sum(Filter(s, p), f) == (if p(s[0]) then f(s[0]) else 0.0) + Sum(Filter(s[1..], p), f)
  {
    if p(s[0]) {
      SumCons(s[0], Filter(s[1..], p), f);
    } else {
      assert Filter(s, p) == Filter(s[1..], p);
    }
  }

  /** When `q` is the negation of `p` on every element, the two filters
      partition the sequence: every element lands in exactly one of them. */
  lemma {:induction false} TwoWaySplit<T>(s: seq<T>, p: T -> bool, q: T -> bool)
    requires forall i :: 0 <= i < |s| ==> q(s[i]) == !p(s[i])
    ensures |Filter(s, p)| + |Filter(s, q)| == |s|
    ensures multiset(Filter(s, p)) + multiset(Filter(s, q)) == multiset(s)
  {
    if |s| > 0 {
      var t := s[1..];
      forall i | 0 <= i < |t|
        ensures q(t[i]) == !p(t[i])
      {
        assert t[i] == s[i + 1];
      }
      TwoWaySplit(t, p, q);
      FilterCons(s[0], t, p);
      FilterCons(s[0], t, q);
      assert s == [s[0]] + t;
      OneSideStep(s[0], t, Filter(s, p), Filter(s, q), Filter(t, p), Filter(t, q));
    }
  }

  /** Putting `x` in front of one of two parts of `t` gives two parts of
      `[x] + t`. */
  lemma OneSideStep<T>(x: T, t: seq<T>, a: seq<T>, b: seq<T>, a0: seq<T>, b0: seq<T>)
    requires (a == [x] + a0 && b == b0) || (a == a0 && b == [x] + b0)
    requires |a0| + |b0| == |t| && multiset(a0) + multiset(b0) == multiset(t)
    ensures |a| + |b| == |[x] + t| && multiset(a) + multiset(b) == multiset([x] + t)
  {
  }

  lemma SumCons<T>(x: T, s: seq<T>, f: T -> real)
    ensures Sum([x] + s, f) == f(x) + Sum(s, f)
  {
    assert ([x] + s)[1..] == s;
  }

  /** Summing a sequence with a new element at the back. */
  lemma {:induction false} SumSnoc<T>(s: seq<T>, x: T, f: T -> real)
    ensures Sum(s + [x], f) == Sum(s, f) + f(x)
  {
    if |s| > 0 {
      assert (s + [x])[1..] == s[1..] + [x];
      SumSnoc(s[1..], x, f);
    } else {
      assert s + [x] == [x];
    }
  }

  /** Summing two concatenated sequences. */
  lemma {:induction false} SumConcat<T>(a: seq<T>, b: seq<T>, f: T -> real)
    ensures Sum(a + b, f) == Sum(a, f) + Sum(b, f)
  {
    if |a| > 0 {
      assert (a + b)[1..] == a[1..] + b;
      SumConcat(a[1..], b, f);
    } else {
      assert a + b == b;
    }
  }

  /** `s.filter((_, i) => i !== index)`. */
  function WithoutIndex<T>(s: seq<T>, index: int): (r: seq<T>)
    ensures 0 <= index < |s| ==> r == s[..index] + s[index + 1..]
    ensures !(0 <= index < |s|) ==> r == s
  {
    if |s| == 0 then []
    else
      var r := (if index == 0 then [] else [s[0]]) + WithoutIndex(s[1..], index - 1);
      assert 0 < index < |s| ==> r == s[..index] + s[index + 1..] by {
        if 0 < index < |s| {
          assert s[1..][..index - 1] == s[1..index];
          assert s[1..][index..] == s[index + 1..];
          assert [s[0]] + s[1..index] == s[..index];
        }
      }
      r
  }
}
