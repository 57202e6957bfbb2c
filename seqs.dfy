/** Generic sequence operations used by the model: a LINQ-style `Where`
    filter, the list `Remove` of the .NET collections (first occurrence) and
    a sequence of such removals, with the facts the rest of the model needs. */
module Seqs {

  /** `Where`: keeps the elements satisfying `f`, in their original order. */
  function Filter<T(!new)>(f: T -> bool, s: seq<T>): (r: seq<T>)
    ensures |r| <= |s|
    ensures forall x :: x in r <==> x in s && f(x)
    decreases |s|
  {
    if s == [] then []
    else (if f(s[0]) then [s[0]] else []) + Filter(f, s[1..])
  }

  /** One step of `Filter`, for sequences written out element by element. */
  lemma FilterCons<T(!new)>(f: T -> bool, x: T, s: seq<T>)
    ensures Filter(f, [x] + s) == (if f(x) then [x] else []) + Filter(f, s)
  {
    assert ([x] + s)[0] == x && ([x] + s)[1..] == s;
  }

  /** `r` is obtained from `s` by deleting elements (the order is kept). */
  predicate IsSubsequence<T(==)>(r: seq<T>, s: seq<T>)
    decreases |s|
  {
    if r == [] then true
    else if s == [] then false
    else if r[0] == s[0] then IsSubsequence(r[1..], s[1..])
    else IsSubsequence(r, s[1..])
  }

  /** `List<T>.Remove(x)`: removes the first element equal to `x`, if any. */
  function RemoveFirst<T(==)>(s: seq<T>, x: T): (r: seq<T>)
    decreases |s|
  {
    if s == [] then []
    else if s[0] == x then s[1..]
    else [s[0]] + RemoveFirst(s[1..], x)
  }

  /** Calls `Remove` once for each element of `rs`, in order. */
  function ApplyRemovals<T(==)>(s: seq<T>, rs: seq<T>): (r: seq<T>)
    decreases |rs|
  {
    if rs == [] then s else ApplyRemovals(RemoveFirst(s, rs[0]), rs[1..])
  }

  lemma {:induction false} FilterIsSubsequence<T(!new)>(f: T -> bool, s: seq<T>)
    ensures IsSubsequence(Filter(f, s), s)
    decreases |s|
  {
    if s != [] {
      FilterIsSubsequence(f, s[1..]);
      var r := Filter(f, s);
      if f(s[0]) {
        assert r[0] == s[0] && r[1..] == Filter(f, s[1..]);
      } else {
        assert r == Filter(f, s[1..]);
        assert r != [] ==> r[0] in r && f(r[0]);
      }
    }
  }

  lemma {:induction false} FilterConcat<T(!new)>(f: T -> bool, a: seq<T>, b: seq<T>)
    ensures Filter(f, a + b) == Filter(f, a) + Filter(f, b)
    decreases |a|
  {
    if a == [] {
      assert a + b == b;
    } else {
      assert (a + b)[0] == a[0] && (a + b)[1..] == a[1..] + b;
      FilterConcat(f, a[1..], b);
    }
  }

  /** Filtering keeps everything when every element passes. */
  lemma {:induction false} FilterAll<T(!new)>(f: T -> bool, s: seq<T>)
    requires forall x :: x in s ==> f(x)
    ensures Filter(f, s) == s
    decreases |s|
  {
    if s != [] {
      assert forall x :: x in s[1..] ==> x in s;
      FilterAll(f, s[1..]);
      assert s == [s[0]] + s[1..];
    }
  }

  /** Filtering keeps nothing when no element passes. */
  lemma {:induction false} FilterNone<T(!new)>(f: T -> bool, s: seq<T>)
    requires forall x :: x in s ==> !f(x)
    ensures Filter(f, s) == []
    decreases |s|
  {
    if s != [] {
      assert s[0] in s;
      assert forall x :: x in s[1..] ==> x in s;
      FilterNone(f, s[1..]);
    }
  }

  /** Removing the first `x` skips a prefix that holds no `x`. */
  lemma {:induction false} RemoveFirstAfter<T>(k: seq<T>, x: T, t: seq<T>)
    requires x !in k
    ensures RemoveFirst(k + [x] + t, x) == k + t
    decreases |k|
  {
    if k == [] {
      assert [x] + t == k + [x] + t;
    } else {
      var s := k + [x] + t;
      assert s[0] == k[0] && s[1..] == k[1..] + [x] + t;
      RemoveFirstAfter(k[1..], x, t);
      assert k + t == [k[0]] + (k[1..] + t);
    }
  }

  /** Removing, one by one, every element of `s` that `drop` selects (in
      order of appearance) leaves exactly the elements that `keep` selects,
      in order, behind an untouched prefix `k` of kept elements. */
  lemma {:induction false} ApplyRemovalsOfFilter<T(!new)>(keep: T -> bool, drop: T -> bool, k: seq<T>, s: seq<T>)
    requires forall y :: drop(y) == !keep(y)
    requires forall y :: y in k ==> keep(y)
    ensures ApplyRemovals(k + s, Filter(drop, s)) == k + Filter(keep, s)
    decreases |s|
  {
    if s == [] {
      assert k + s == k;
    } else {
      var x, t := s[0], s[1..];
      assert s == [x] + t;
      if keep(x) {
        assert Filter(drop, s) == Filter(drop, t);
        assert k + s == (k + [x]) + t;
        ApplyRemovalsOfFilter(keep, drop, k + [x], t);
        assert Filter(keep, s) == [x] + Filter(keep, t);
      } else {
        assert Filter(drop, s) == [x] + Filter(drop, t);
        assert x !in k;
        RemoveFirstAfter(k, x, t);
        assert k + s == k + [x] + t;
        ApplyRemovalsOfFilter(keep, drop, k, t);
        assert Filter(keep, s) == Filter(keep, t);
      }
    }
  }

  /** Filtering twice is filtering once by the conjunction. */
  lemma {:induction false} FilterFilter<T(!new)>(f: T -> bool, g: T -> bool, h: T -> bool, s: seq<T>)
    requires forall x :: h(x) == (f(x) && g(x))
    ensures Filter(g, Filter(f, s)) == Filter(h, s)
    decreases |s|
  {
    if s != [] {
      FilterFilter(f, g, h, s[1..]);
      var r := Filter(f, s);
      if f(s[0]) {
        assert r == [s[0]] + Filter(f, s[1..]);
        assert r[0] == s[0] && r[1..] == Filter(f, s[1..]);
        assert Filter(g, r) == (if g(r[0]) then [r[0]] else []) + Filter(g, r[1..]);
      } else {
        assert r == Filter(f, s[1..]);
      }
    }
  }

  /** Two positions satisfying the predicate leave two elements in the filter. */
  lemma {:induction false} FilterTwoFrom<T(!new)>(f: T -> bool, s: seq<T>, i: nat, j: nat)
    requires i < j < |s| && f(s[i]) && f(s[j])
    ensures |Filter(f, s)| >= 2
    decreases |s|
  {
    var t := s[1..];
    if i == 0 {
      assert t[j - 1] == s[j] && t[j - 1] in t;
      assert |Filter(f, t)| >= 1;
    } else {
      FilterTwoFrom(f, t, i - 1, j - 1);
    }
  }

  /** Two elements left by the filter come from two positions of the input. */
  lemma {:induction false} FilterTwoWitness<T(!new)>(f: T -> bool, s: seq<T>) returns (i: nat, j: nat)
    requires |Filter(f, s)| >= 2
    ensures i < j < |s| && f(s[i]) && f(s[j])
    decreases |s|
  {
    var t := s[1..];
    if f(s[0]) {
      var y := Filter(f, t)[0];
      assert y in Filter(f, t);
      var k :| 0 <= k < |t| && t[k] == y;
      i, j := 0, k + 1;
    } else {
      var i', j' := FilterTwoWitness(f, t);
      i, j := i' + 1, j' + 1;
    }
  }

  /** A filter keeps two or more elements exactly when two positions of the
      input satisfy the predicate. */
  lemma FilterTwo<T(!new)>(f: T -> bool, s: seq<T>)
    ensures |Filter(f, s)| >= 2 <==> exists i, j :: 0 <= i < j < |s| && f(s[i]) && f(s[j])
  {
    if |Filter(f, s)| >= 2 {
      var i, j := FilterTwoWitness(f, s);
    }
    if exists i, j :: 0 <= i < j < |s| && f(s[i]) && f(s[j]) {
      var i, j :| 0 <= i < j < |s| && f(s[i]) && f(s[j]);
      FilterTwoFrom(f, s, i, j);
    }
  }
}
