/** Sequence operations shared by the dashboard pages and the backend:
    prefix slicing, filtering, first-seen de-duplication, a stable sort by a
    numeric key, and the first position of a maximum. */
module Seqs {

  /** `s.slice(0, n)` for a non-negative n. */
  function Take<T>(s: seq<T>, n: nat): (r: seq<T>)
    ensures r <= s
    ensures |r| <= n
    ensures |s| <= n ==> r == s
    ensures |s| > n ==> |r| == n
  {
    if |s| <= n then s else s[..n]
  }

  /** Python's `s[:n]`, where a negative n counts from the end. */
  function PySliceTo<T>(s: seq<T>, n: int): (r: seq<T>)
    ensures r <= s
    ensures n >= 0 ==> r == Take(s, n)
    ensures n < 0 ==> |r| == if |s| + n > 0 then |s| + n else 0
  {
    if n >= 0 then Take(s, n)
    else if |s| + n > 0 then s[..|s| + n]
    else []
  }

  /** Array.prototype.filter: the elements satisfying p, in input order. */
  function Filter<T(!new)>(s: seq<T>, p: T -> bool): (r: seq<T>)
    ensures |r| <= |s|
    ensures forall x :: x in r ==> x in s && p(x)
    ensures forall x :: x in s && p(x) ==> x in r
  {
    if s == [] then []
    else if p(s[0]) then [s[0]] + Filter(s[1..], p)
    else Filter(s[1..], p)
  }

  lemma FilterCons<T(!new)>(a: T, s: seq<T>, p: T -> bool)
    ensures Filter([a] + s, p) == (if p(a) then [a] else []) + Filter(s, p)
  {
    assert ([a] + s)[1..] == s;
  }

  lemma FilterSkip<T(!new)>(a: T, s: seq<T>, p: T -> bool)
    requires !p(a)
    ensures Filter([a] + s, p) == Filter(s, p)
  {
    assert ([a] + s)[1..] == s;
  }

  lemma {:induction false} FilterAppend<T(!new)>(a: seq<T>, b: seq<T>, p: T -> bool)
    ensures Filter(a + b, p) == Filter(a, p) + Filter(b, p)
    decreases a
  {
    if a != [] {
      assert a == [a[0]] + a[1..];
      assert a + b == [a[0]] + (a[1..] + b);
      FilterCons(a[0], a[1..], p);
      FilterCons(a[0], a[1..] + b, p);
      FilterAppend(a[1..], b, p);
      AppendAssoc(if p(a[0]) then [a[0]] else [], Filter(a[1..], p), Filter(b, p));
    } else {
      assert a + b == b;
    }
  }

  function Count<T(!new)>(s: seq<T>, p: T -> bool): nat
  {
    |Filter(s, p)|
  }

  /** Filtering by a predicate and by its complement q splits the input:
      the two parts together hold exactly the input's elements. */
  lemma {:induction false} FilterPartition<T(!new)>(s: seq<T>, p: T -> bool, q: T -> bool)
    requires forall x :: q(x) <==> !p(x)
    ensures |Filter(s, p)| + |Filter(s, q)| == |s|
    ensures multiset(Filter(s, p)) + multiset(Filter(s, q)) == multiset(s)
    decreases s
  {
    if s != [] {
      FilterPartition(s[1..], p, q);
      assert s == [s[0]] + s[1..];
    }
  }

  /** Position of the first occurrence of x in s. */
  function IndexOf<T(==)>(s: seq<T>, x: T): (i: nat)
    requires x in s
    ensures i < |s| && s[i] == x
    ensures forall j :: 0 <= j < i ==> s[j] != x
  {
    if s[0] == x then 0 else 1 + IndexOf(s[1..], x)
  }

  predicate NoDuplicates<T(==)>(s: seq<T>)
  {
    forall i, j :: 0 <= i < j < |s| ==> s[i] != s[j]
  }

  /** `[...new Set(s)]`: each element once, in order of first appearance. */
  function Distinct<T(==,!new)>(s: seq<T>): (r: seq<T>)
    ensures NoDuplicates(r)
    ensures forall x :: x in r <==> x in s
    ensures |r| <= |s|
    decreases |s|
  {
    if s == [] then []
    else
      var d := Distinct(s[..|s| - 1]);
      if s[|s| - 1] in d then d else d + [s[|s| - 1]]
  }

  /** The distinct elements come in the order of their first appearance. */
  lemma {:induction false} DistinctFirstSeenOrder<T(!new)>(s: seq<T>)
    ensures forall i, j :: 0 <= i < j < |Distinct(s)| ==>
              IndexOf(s, Distinct(s)[i]) < IndexOf(s, Distinct(s)[j])
    decreases |s|
  {
    if s != [] {
      var init := s[..|s| - 1];
      var last := s[|s| - 1];
      DistinctFirstSeenOrder(init);
      var d := Distinct(init);
      forall x | x in init
        ensures IndexOf(s, x) == IndexOf(init, x)
      {
        IndexOfPrefix(init, s, x);
      }
      if last !in d {
        assert last !in init;
        assert IndexOf(s, last) == |s| - 1;
      }
    }
  }

  lemma {:induction false} IndexOfPrefix<T>(a: seq<T>, s: seq<T>, x: T)
    requires a <= s && x in a
    ensures IndexOf(s, x) == IndexOf(a, x)
    decreases |a|
  {
    if s[0] != x {
      assert a[1..] <= s[1..];
      IndexOfPrefix(a[1..], s[1..], x);
    }
  }

  lemma AppendAssoc<T>(a: seq<T>, b: seq<T>, c: seq<T>)
    ensures a + (b + c) == a + b + c
  {
  }

  /** `s.map(f)`. */
  function MapSeq<A, B>(s: seq<A>, f: A -> B): (r: seq<B>)
    ensures |r| == |s|
    ensures forall i :: 0 <= i < |s| ==> r[i] == f(s[i])
  {
    seq(|s|, i requires 0 <= i < |s| => f(s[i]))
  }

  lemma MapSeqAppend<A, B>(a: seq<A>, b: seq<A>, f: A -> B)
    ensures MapSeq(a + b, f) == MapSeq(a, f) + MapSeq(b, f)
  {
    assert forall i :: 0 <= i < |a| + |b| ==> (MapSeq(a, f) + MapSeq(b, f))[i] == f((a + b)[i]);
  }

  /** Mapping the filtered input grows by the image of a kept last
      element. */
  lemma FilterMapSnoc<A(!new), B>(init: seq<A>, last: A, p: A -> bool, f: A -> B)
    ensures MapSeq(Filter(init + [last], p), f) == MapSeq(Filter(init, p), f) + (if p(last) then [f(last)] else [])
  {
    FilterAppend(init, [last], p);
    var b := if p(last) then [last] else [];
    assert Filter([last], p) == b by {
      FilterCons(last, [], p);
      assert [last] + [] == [last];
    }
    MapSeqAppend(Filter(init, p), b, f);
    assert MapSeq(b, f) == if p(last) then [f(last)] else [];
  }

  /** Non-increasing order of key. */
  predicate SortedDesc<T>(s: seq<T>, key: T -> real)
  {
    forall i, j :: 0 <= i < j < |s| ==> key(s[i]) >= key(s[j])
  }

  /** Places x after every element whose key is strictly larger. */
  function Insert<T>(x: T, t: seq<T>, key: T -> real): (r: seq<T>)
    ensures |r| == |t| + 1
    decreases t
  {
    if t == [] then [x]
    else if key(t[0]) > key(x) then [t[0]] + Insert(x, t[1..], key) else [x] + t
  }

  /** Insertion adds exactly x. */
  lemma {:induction false} InsertPerm<T>(x: T, t: seq<T>, key: T -> real)
    ensures multiset(Insert(x, t, key)) == multiset(t) + multiset{x}
    decreases t
  {
    if t != [] {
      assert t == [t[0]] + t[1..];
      if key(t[0]) > key(x) {
        InsertPerm(x, t[1..], key);
      }
    }
  }

  /** A stable sort by descending key: `sorted(s, key=key, reverse=True)` in
      Python and `s.sort((a, b) => key(b) - key(a))` in JavaScript. */
  function SortDesc<T>(s: seq<T>, key: T -> real): (r: seq<T>)
    ensures multiset(r) == multiset(s)
    ensures |r| == |s|
    decreases s
  {
    if s == [] then []
    else
      assert s == [s[0]] + s[1..];
      InsertPerm(s[0], SortDesc(s[1..], key), key);
      Insert(s[0], SortDesc(s[1..], key), key)
  }

  lemma {:induction false} InsertSorted<T>(x: T, t: seq<T>, key: T -> real)
    requires SortedDesc(t, key)
    ensures SortedDesc(Insert(x, t, key), key)
    decreases t
  {
    if t != [] && key(t[0]) > key(x) {
      InsertSorted(x, t[1..], key);
      HeadSorted(t, key);
      InsertBelow(x, t[1..], key, key(t[0]));
      ConsSorted(t[0], Insert(x, t[1..], key), key);
    } else if t != [] {
      HeadSorted(t, key);
      assert t == [t[0]] + t[1..];
      ConsSorted(x, t, key);
    }
  }

  /** The head of a descending sequence bounds the rest. */
  lemma HeadSorted<T>(t: seq<T>, key: T -> real)
    requires t != [] && SortedDesc(t, key)
    ensures SortedDesc(t[1..], key) && forall y :: y in t[1..] ==> key(y) <= key(t[0])
  {
    forall y | y in t[1..]
      ensures key(y) <= key(t[0])
    {
      var j :| 0 <= j < |t[1..]| && t[1..][j] == y;
      assert t[j + 1] == y;
    }
  }

  /** Inserting below a bound keeps every element below it. */
  lemma InsertBelow<T>(x: T, t: seq<T>, key: T -> real, b: real)
    requires key(x) <= b && forall y :: y in t ==> key(y) <= b
    ensures forall y :: y in Insert(x, t, key) ==> key(y) <= b
  {
    InsertPerm(x, t, key);
    forall y | y in Insert(x, t, key)
      ensures key(y) <= b
    {
      assert y in multiset(Insert(x, t, key));
      if y != x {
        assert y in multiset(t);
      }
    }
  }

  /** A head at least as large as every element of a descending tail. */
  lemma ConsSorted<T>(a: T, s: seq<T>, key: T -> real)
    requires SortedDesc(s, key) && forall y :: y in s ==> key(y) <= key(a)
    ensures SortedDesc([a] + s, key)
  {
    var r := [a] + s;
    forall i, j | 0 <= i < j < |r|
      ensures key(r[i]) >= key(r[j])
    {
      assert r[j] == s[j - 1];
      if i > 0 {
        assert r[i] == s[i - 1];
      } else {
        assert s[j - 1] in s;
      }
    }
  }

  lemma {:induction false} SortDescSorted<T>(s: seq<T>, key: T -> real)
    ensures SortedDesc(SortDesc(s, key), key)
    decreases s
  {
    if s != [] {
      SortDescSorted(s[1..], key);
      InsertSorted(s[0], SortDesc(s[1..], key), key);
    }
  }

  /** The elements whose key is v. */
  function KeyIs<T>(key: T -> real, v: real): T -> bool
  {
    y => key(y) == v
  }

  lemma {:induction false} InsertStable<T(!new)>(x: T, t: seq<T>, key: T -> real, v: real)
    ensures Filter(Insert(x, t, key), KeyIs(key, v))
         == (if KeyIs(key, v)(x) then [x] else []) + Filter(t, KeyIs(key, v))
    decreases t
  {
    if t != [] && key(t[0]) > key(x) {
      InsertStable(x, t[1..], key, v);
      InsertPastHead(x, t, key, v);
    } else if t != [] {
      FilterCons(x, t, KeyIs(key, v));
    }
  }

  /** Inserting past a larger head: at most one of the head and x has key v. */
  lemma InsertPastHead<T(!new)>(x: T, t: seq<T>, key: T -> real, v: real)
    requires t != [] && key(t[0]) > key(x)
    requires Filter(Insert(x, t[1..], key), KeyIs(key, v))
          == (if KeyIs(key, v)(x) then [x] else []) + Filter(t[1..], KeyIs(key, v))
    ensures Filter(Insert(x, t, key), KeyIs(key, v))
         == (if KeyIs(key, v)(x) then [x] else []) + Filter(t, KeyIs(key, v))
  {
    assert Insert(x, t, key) == [t[0]] + Insert(x, t[1..], key);
    assert t == [t[0]] + t[1..];
    FilterPastHead(t[0], x, Insert(x, t[1..], key), t[1..], KeyIs(key, v));
  }

  /** Filtering past a head h that cannot pass together with x. */
  lemma FilterPastHead<T(!new)>(h: T, x: T, ins: seq<T>, t: seq<T>, p: T -> bool)
    requires !(p(h) && p(x))
    requires Filter(ins, p) == (if p(x) then [x] else []) + Filter(t, p)
    ensures Filter([h] + ins, p) == (if p(x) then [x] else []) + Filter([h] + t, p)
  {
    FilterCons(h, ins, p);
    FilterCons(h, t, p);
    if p(x) {
      assert Filter([h] + ins, p) == [x] + Filter(t, p);
    } else {
      assert Filter(ins, p) == Filter(t, p);
    }
  }

  /** Stability: among elements with equal keys the input order is kept. */
  lemma {:induction false} SortDescStable<T(!new)>(s: seq<T>, key: T -> real, v: real)
    ensures Filter(SortDesc(s, key), KeyIs(key, v)) == Filter(s, KeyIs(key, v))
    decreases s
  {
    if s != [] {
      SortDescStable(s[1..], key, v);
      InsertStable(s[0], SortDesc(s[1..], key), key, v);
    }
  }

  /** `s.indexOf(Math.max(...s))`, and Python's `max` over keys: the first
      position holding the largest value. */
  function FirstMaxIndex(s: seq<real>): (i: nat)
    requires |s| > 0
    ensures i < |s|
    ensures forall j :: 0 <= j < |s| ==> s[j] <= s[i]
    ensures forall j :: 0 <= j < i ==> s[j] < s[i]
    decreases |s|
  {
    if |s| == 1 then 0
    else
      var k := FirstMaxIndex(s[..|s| - 1]);
      if s[|s| - 1] > s[k] then |s| - 1 else k
  }

  function Sum(s: seq<real>): real
  {
    if s == [] then 0.0 else Sum(s[..|s| - 1]) + s[|s| - 1]
  }

  lemma {:induction false} SumNonNegative(s: seq<real>)
    requires forall i :: 0 <= i < |s| ==> s[i] >= 0.0
    ensures Sum(s) >= 0.0
    decreases |s|
  {
    if s != [] {
      SumNonNegative(s[..|s| - 1]);
    }
  }

  /** A non-negative element never exceeds the sum of a non-negative sequence. */
  lemma {:induction false} ElementAtMostSum(s: seq<real>, k: nat)
    requires k < |s|
    requires forall i :: 0 <= i < |s| ==> s[i] >= 0.0
    ensures s[k] <= Sum(s)
    decreases |s|
  {
    SumNonNegative(s[..|s| - 1]);
    if k < |s| - 1 {
      ElementAtMostSum(s[..|s| - 1], k);
    }
  }
}
