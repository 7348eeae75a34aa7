/**
  * Array operations the handlers use on lists: JavaScript's `slice(0, end)`, counting with
  * a predicate, and `Array.prototype.sort` with a descending numeric comparator, which is
  * stable.
  */
module Seqs {

  /** `s.slice(0, end)`: a negative `end` counts from the back, and it is clamped to the length. */
  function SliceTo<T>(s: seq<T>, end: int): (r: seq<T>)
    ensures r <= s
    ensures end >= 0 ==> |r| == if end < |s| then end else |s|
    ensures end < 0 ==> |r| == if |s| + end > 0 then |s| + end else 0
  {
    if end >= 0 then (if end < |s| then s[..end] else s)
    else (if |s| + end > 0 then s[..|s| + end] else [])
  }

  /** Elements past the cut do not change a slice that is already full. */
  lemma SliceToExtended<T>(s: seq<T>, more: seq<T>, end: int)
    requires 0 <= end <= |s|
    ensures SliceTo(s + more, end) == SliceTo(s, end)
  {
    assert (s + more)[..end] == s[..end];
  }

  /** Number of elements satisfying `p` (`s.filter(p).length`). */
  function CountWhere<T>(s: seq<T>, p: T -> bool): (n: nat)
    ensures n <= |s|
    decreases |s|
  {
    if s == [] then 0 else (if p(s[0]) then 1 else 0) + CountWhere(s[1..], p)
  }

  lemma {:induction false} CountWhereAppend<T>(a: seq<T>, b: seq<T>, p: T -> bool)
    ensures CountWhere(a + b, p) == CountWhere(a, p) + CountWhere(b, p)
    decreases |a|
  {
    if a != [] {
      assert (a + b)[1..] == a[1..] + b;
      CountWhereAppend(a[1..], b, p);
    } else {
      assert a + b == b;
    }
  }

  /** Taking out the element at `i` lowers the count by one exactly when it satisfies `p`. */
  lemma CountWhereRemove<T>(b: seq<T>, i: int, p: T -> bool)
    requires 0 <= i < |b|
    ensures CountWhere(b, p) == CountWhere(b[..i] + b[i + 1..], p) + (if p(b[i]) then 1 else 0)
  {
    var pre, y, post := b[..i], b[i], b[i + 1..];
    assert b == pre + ([y] + post);
    CountWhereAppend(pre, [y] + post, p);
    assert ([y] + post)[1..] == post;
    assert CountWhere([y] + post, p) == (if p(y) then 1 else 0) + CountWhere(post, p);
    CountWhereAppend(pre, post, p);
  }

  /** Reordering a sequence does not change how many of its elements satisfy `p`. */
  lemma {:induction false} CountWhereMultiset<T>(a: seq<T>, b: seq<T>, p: T -> bool)
    requires multiset(a) == multiset(b)
    ensures CountWhere(a, p) == CountWhere(b, p)
    decreases |a|
  {
    if a != [] {
      assert a[0] in multiset(b);
      var i :| 0 <= i < |b| && b[i] == a[0];
      var rest := b[..i] + b[i + 1..];
      MultisetRemove(a, b, i);
      CountWhereMultiset(a[1..], rest, p);
      CountWhereRemove(b, i, p);
    }
  }

  lemma MultisetRemove<T>(a: seq<T>, b: seq<T>, i: int)
    requires a != [] && 0 <= i < |b| && b[i] == a[0] && multiset(a) == multiset(b)
    ensures multiset(a[1..]) == multiset(b[..i] + b[i + 1..])
  {
    assert b == b[..i] + [b[i]] + b[i + 1..];
    assert a == [a[0]] + a[1..];
    calc {
      multiset(b);
      multiset(b[..i]) + multiset{b[i]} + multiset(b[i + 1..]);
      multiset(b[..i] + b[i + 1..]) + multiset{a[0]};
    }
    assert multiset(a) == multiset(a[1..]) + multiset{a[0]};
    assert multiset(a[1..]) == multiset(a) - multiset{a[0]};
    assert multiset(b[..i] + b[i + 1..]) == multiset(b) - multiset{a[0]};
  }

  /** Elements satisfying `p`, in order (`s.filter(p)`). */
  function Filter<T>(s: seq<T>, p: T -> bool): (r: seq<T>)
    ensures |r| == CountWhere(s, p)
    decreases |s|
  {
    if s == [] then [] else (if p(s[0]) then [s[0]] else []) + Filter(s[1..], p)
  }

  /** `Filter` keeps exactly the elements of the list that pass the test. */
  lemma {:induction false} FilterMembers<T>(s: seq<T>, p: T -> bool)
    ensures forall x :: x in Filter(s, p) <==> x in s && p(x)
    decreases |s|
  {
    if s != [] {
      FilterMembers(s[1..], p);
      assert s == [s[0]] + s[1..];
    }
  }

  /** Filtering a concatenation filters each part and keeps them in order. */
  lemma {:induction false} FilterAppend<T>(a: seq<T>, b: seq<T>, p: T -> bool)
    ensures Filter(a + b, p) == Filter(a, p) + Filter(b, p)
    decreases |a|
  {
    if a == [] {
      assert a + b == b;
    } else {
      var h := if p(a[0]) then [a[0]] else [];
      assert (a + b)[0] == a[0];
      assert (a + b)[1..] == a[1..] + b;
      FilterAppend(a[1..], b, p);
      assert Filter(a + b, p) == h + (Filter(a[1..], p) + Filter(b, p));
    }
  }

  /** Filtering a longer list extends the filtered list by the new element when it passes. */
  lemma {:induction false} FilterSnoc<T>(s: seq<T>, x: T, p: T -> bool)
    ensures Filter(s + [x], p) == Filter(s, p) + (if p(x) then [x] else [])
    decreases |s|
  {
    if s == [] {
      assert s + [x] == [x];
      assert [x][1..] == [];
    } else {
      var t := s[1..];
      var h := if p(s[0]) then [s[0]] else [];
      assert (s + [x])[0] == s[0];
      assert (s + [x])[1..] == t + [x];
      FilterSnoc(t, x, p);
      assert Filter(s + [x], p) == h + Filter(t + [x], p);
      assert Filter(s, p) == h + Filter(t, p);
    }
  }

  /** `s.map(f).filter(p)`. */
  function MapFilter<T, U>(s: seq<T>, f: T -> U, p: U -> bool): (r: seq<U>)
    ensures |r| <= |s|
    ensures forall y :: y in r ==> p(y)
    decreases |s|
  {
    if s == [] then [] else (if p(f(s[0])) then [f(s[0])] else []) + MapFilter(s[1..], f, p)
  }

  lemma {:induction false} MapFilterAppend<T, U>(a: seq<T>, b: seq<T>, f: T -> U, p: U -> bool)
    ensures MapFilter(a + b, f, p) == MapFilter(a, f, p) + MapFilter(b, f, p)
    decreases |a|
  {
    if a == [] {
      assert a + b == b;
    } else {
      var h := if p(f(a[0])) then [f(a[0])] else [];
      assert (a + b)[0] == a[0];
      assert (a + b)[1..] == a[1..] + b;
      MapFilterAppend(a[1..], b, f, p);
      assert MapFilter(a + b, f, p) == h + (MapFilter(a[1..], f, p) + MapFilter(b, f, p));
    }
  }

  /** Two map-filters that keep the same elements and map them alike give the same list. */
  lemma {:induction false} MapFilterAgree<T, U>(s: seq<T>, f: T -> U, p: U -> bool, g: T -> U, q: U -> bool)
    requires forall i :: 0 <= i < |s| ==> (p(f(s[i])) <==> q(g(s[i])))
    requires forall i :: 0 <= i < |s| ==> p(f(s[i])) ==> f(s[i]) == g(s[i])
    ensures MapFilter(s, f, p) == MapFilter(s, g, q)
    decreases |s|
  {
    if s != [] {
      assert forall i :: 0 <= i < |s[1..]| ==> s[1..][i] == s[i + 1];
      MapFilterAgree(s[1..], f, p, g, q);
    }
  }

  function Sum(s: seq<int>): int
    decreases |s|
  {
    if s == [] then 0 else s[0] + Sum(s[1..])
  }

  lemma {:induction false} SumAppend(a: seq<int>, b: seq<int>)
    ensures Sum(a + b) == Sum(a) + Sum(b)
    decreases |a|
  {
    if a != [] {
      assert (a + b)[1..] == a[1..] + b;
      SumAppend(a[1..], b);
    } else {
      assert a + b == b;
    }
  }

  predicate SortedDesc<T>(s: seq<T>, key: T -> int) {
    forall i, j :: 0 <= i < j < |s| ==> key(s[i]) >= key(s[j])
  }

  /** Cutting a list in two splits its multiset. */
  lemma SplitMultiset<T>(s: seq<T>, m: int)
    requires 0 <= m <= |s|
    ensures multiset(s[..m]) + multiset(s[m..]) == multiset(s)
  {
    assert s == s[..m] + s[m..];
  }

  /** In a descending list nothing after a cut is larger than anything before it. */
  lemma SortedDescCut<T>(s: seq<T>, m: int, key: T -> int)
    requires SortedDesc(s, key) && 0 <= m <= |s|
    ensures forall e, d :: e in s[..m] && d in s[m..] ==> key(d) <= key(e)
  {
    forall e, d | e in s[..m] && d in s[m..]
      ensures key(d) <= key(e)
    {
      var i :| 0 <= i < m && s[..m][i] == e;
      var j :| 0 <= j < |s| - m && s[m..][j] == d;
      assert s[i] == e && s[m + j] == d;
    }
  }

  /** An element of the whole that is not in one part is in the other. */
  lemma SplitMember<T>(x: T, s: seq<T>, a: seq<T>, b: seq<T>)
    requires multiset(a) + multiset(b) == multiset(s) && x in s && x !in a
    ensures x in b
  {
    assert x in multiset(s);
    assert x !in multiset(a);
  }

  /** Elements of a sub-multiset are elements of the whole. */
  lemma SubMultisetMembers<T>(a: seq<T>, b: seq<T>)
    requires multiset(a) <= multiset(b)
    ensures forall e :: e in a ==> e in b
  {
    forall e | e in a
      ensures e in b
    {
      assert e in multiset(a);
    }
  }

  /** Puts `x` in front of the first element whose key is not larger than its own. */
  function InsertDesc<T>(x: T, s: seq<T>, key: T -> int): (r: seq<T>)
    ensures |r| == |s| + 1
    ensures multiset(r) == multiset(s) + multiset{x}
    ensures forall y :: y in r ==> y == x || y in s
    decreases |s|
  {
    if s == [] || key(s[0]) <= key(x) then [x] + s
    else
      var rest := InsertDesc(x, s[1..], key);
      assert s == [s[0]] + s[1..];
      [s[0]] + rest
  }

  lemma ConsSplit<T>(s: seq<T>, x: T, k: int)
    requires 1 <= k <= |s|
    ensures [s[0]] + (s[1..][..k - 1] + [x] + s[1..][k - 1..]) == s[..k] + [x] + s[k..]
  {
    assert s[..k] == [s[0]] + s[1..][..k - 1];
    assert s[k..] == s[1..][k - 1..];
  }

  /** `InsertDesc` puts `x` at the first position whose key is not larger than its own. */
  lemma {:induction false} InsertDescAt<T>(x: T, s: seq<T>, key: T -> int, k: int)
    requires 0 <= k <= |s|
    requires forall m :: 0 <= m < k ==> key(s[m]) > key(x)
    requires k == |s| || key(s[k]) <= key(x)
    ensures InsertDesc(x, s, key) == s[..k] + [x] + s[k..]
    decreases k
  {
    if k == 0 {
      assert s[..k] == [] && s[k..] == s;
    } else {
      var t := s[1..];
      assert key(s[0]) > key(x);
      assert InsertDesc(x, s, key) == [s[0]] + InsertDesc(x, t, key);
      forall m | 0 <= m < k - 1
        ensures key(t[m]) > key(x)
      {
        assert t[m] == s[m + 1];
      }
      assert k - 1 == |t| || t[k - 1] == s[k];
      InsertDescAt(x, t, key, k - 1);
      ConsSplit(s, x, k);
    }
  }

  /** Inserting under a bound that `x` and every element respect gives a list under that bound. */
  lemma InsertDescBounded<T>(x: T, s: seq<T>, key: T -> int, b: int)
    requires key(x) <= b && forall i :: 0 <= i < |s| ==> key(s[i]) <= b
    ensures forall i :: 0 <= i < |InsertDesc(x, s, key)| ==> key(InsertDesc(x, s, key)[i]) <= b
  {
    var r := InsertDesc(x, s, key);
    forall i | 0 <= i < |r|
      ensures key(r[i]) <= b
    {
      var y := r[i];
      assert y in r;
      if y != x {
        var j :| 0 <= j < |s| && s[j] == y;
      }
    }
  }

  /** Inserting into a descending list keeps it descending. */
  lemma {:induction false} InsertDescSorted<T>(x: T, s: seq<T>, key: T -> int)
    requires SortedDesc(s, key)
    ensures SortedDesc(InsertDesc(x, s, key), key)
    decreases |s|
  {
    if s != [] && key(s[0]) > key(x) {
      var t := s[1..];
      var rest := InsertDesc(x, t, key);
      InsertDescSorted(x, t, key);
      forall i | 0 <= i < |t|
        ensures key(t[i]) <= key(s[0])
      {
        assert t[i] == s[i + 1];
      }
      InsertDescBounded(x, t, key, key(s[0]));
      var r := [s[0]] + rest;
      assert InsertDesc(x, s, key) == r;
      forall i, j | 0 <= i < j < |r|
        ensures key(r[i]) >= key(r[j])
      {
        assert r[j] == rest[j - 1];
        if i > 0 {
          assert r[i] == rest[i - 1];
        }
      }
    }
  }

  /**
    * `s.sort((a, b) => key(b) - key(a))` with a stable sort: descending by key, equal keys
    * in their original order.
    */
  function SortDesc<T>(s: seq<T>, key: T -> int): (r: seq<T>)
    ensures |r| == |s| && multiset(r) == multiset(s)
    ensures SortedDesc(r, key)
    decreases |s|
  {
    if s == [] then [] else
      assert s == [s[0]] + s[1..];
      InsertDescSorted(s[0], SortDesc(s[1..], key), key);
      InsertDesc(s[0], SortDesc(s[1..], key), key)
  }

  /**
    * `a.sort((x, y) => key(y) - key(x))` on an array: an insertion sort from the back that
    * leaves in `a` what `SortDesc` computes from its old contents.
    */
  method SortDescInPlace<T>(a: array<T>, key: T -> int)
    modifies a
    ensures a[..] == SortDesc(old(a[..]), key)
  {
    ghost var o := a[..];
    var i := a.Length;
    while i > 0
      invariant 0 <= i <= a.Length
      invariant forall m :: 0 <= m < i ==> a[m] == o[m]
      invariant a[i..] == SortDesc(o[i..], key)
    {
      InsertInto(a, i - 1, key);
      SortDescCons(o, i, key);
      i := i - 1;
    }
    assert o[0..] == o;
    assert a[..] == a[0..];
  }

  lemma SortDescCons<T>(o: seq<T>, i: int, key: T -> int)
    requires 0 < i <= |o|
    ensures SortDesc(o[i - 1..], key) == InsertDesc(o[i - 1], SortDesc(o[i..], key), key)
  {
    assert o[i - 1..][1..] == o[i..];
  }

  /** Moves `a[lo]` rightwards past every larger key, so that `a[lo..]` becomes `InsertDesc`. */
  method InsertInto<T>(a: array<T>, lo: int, key: T -> int)
    requires 0 <= lo < a.Length
    modifies a
    ensures forall m :: 0 <= m < lo ==> a[m] == old(a[m])
    ensures a[lo..] == InsertDesc(old(a[lo]), old(a[lo + 1..]), key)
  {
    ghost var s := a[lo + 1..];
    var x := a[lo];
    var j := lo;
    while j + 1 < a.Length && key(a[j + 1]) > key(x)
      invariant lo <= j < a.Length
      invariant forall m :: 0 <= m < lo ==> a[m] == old(a[m])
      invariant forall m :: lo <= m < j ==> a[m] == s[m - lo]
      invariant forall m :: j < m < a.Length ==> a[m] == s[m - lo - 1]
      invariant forall m :: 0 <= m < j - lo ==> key(s[m]) > key(x)
    {
      a[j] := a[j + 1];
      j := j + 1;
    }
    a[j] := x;
    ShiftedIsInsert(a[lo..], s, x, j - lo);
    InsertDescAt(x, s, key, j - lo);
  }

  /** A sequence that holds `s` with `x` placed at index `k` is `s[..k] + [x] + s[k..]`. */
  lemma ShiftedIsInsert<T>(b: seq<T>, s: seq<T>, x: T, k: int)
    requires |b| == |s| + 1 && 0 <= k <= |s|
    requires forall m :: 0 <= m < k ==> b[m] == s[m]
    requires b[k] == x
    requires forall m :: k < m < |b| ==> b[m] == s[m - 1]
    ensures b == s[..k] + [x] + s[k..]
  {
    var want := s[..k] + [x] + s[k..];
    forall m | 0 <= m < |b|
      ensures b[m] == want[m]
    {
      if m < k {
        assert want[m] == s[m];
      } else if m > k {
        assert want[m] == s[m - 1];
      }
    }
  }

  /** The elements whose key is `k`, in order. */
  function WithKey<T>(s: seq<T>, key: T -> int, k: int): seq<T>
    decreases |s|
  {
    if s == [] then [] else (if key(s[0]) == k then [s[0]] else []) + WithKey(s[1..], key, k)
  }

  /** `WithKey` of a list with a known first element. */
  lemma WithKeyCons<T>(y: T, t: seq<T>, key: T -> int, k: int)
    ensures WithKey([y] + t, key, k) == (if key(y) == k then [y] else []) + WithKey(t, key, k)
  {
    assert ([y] + t)[1..] == t;
  }

  lemma {:induction false} InsertDescStable<T>(x: T, s: seq<T>, key: T -> int, k: int)
    ensures WithKey(InsertDesc(x, s, key), key, k) == (if key(x) == k then [x] else []) + WithKey(s, key, k)
    decreases |s|
  {
    if s == [] || key(s[0]) <= key(x) {
      WithKeyCons(x, s, key, k);
    } else {
      var rest := InsertDesc(x, s[1..], key);
      InsertDescStable(x, s[1..], key, k);
      InsertDescStableStep(x, s, rest, key, k);
    }
  }

  /** One step of `InsertDescStable`, past a first element whose key is larger than `x`'s. */
  lemma InsertDescStableStep<T>(x: T, s: seq<T>, rest: seq<T>, key: T -> int, k: int)
    requires s != [] && key(s[0]) > key(x)
    requires WithKey(rest, key, k) == (if key(x) == k then [x] else []) + WithKey(s[1..], key, k)
    ensures WithKey([s[0]] + rest, key, k) == (if key(x) == k then [x] else []) + WithKey(s, key, k)
  {
    WithKeyCons(s[0], rest, key, k);
    assert s == [s[0]] + s[1..];
    WithKeyCons(s[0], s[1..], key, k);
  }

  /** Stability: among elements with equal keys the sort keeps the input order. */
  lemma {:induction false} SortDescStable<T>(s: seq<T>, key: T -> int, k: int)
    ensures WithKey(SortDesc(s, key), key, k) == WithKey(s, key, k)
    decreases |s|
  {
    if s != [] {
      SortDescStable(s[1..], key, k);
      InsertDescStable(s[0], SortDesc(s[1..], key), key, k);
    }
  }
}
