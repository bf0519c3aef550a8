/**
 * The array operations the console leans on everywhere — `filter`, `find`,
 * `findIndex`, `map`, `slice(0, n)` and a stable `sort` with a comparator —
 * as generic functions over sequences, with the facts the views rely on.
 */
module Seqs {
  import opened Wrappers

  /** `r` keeps some of the elements of `s`, in their original order. */
  ghost predicate IsSubseq<T>(r: seq<T>, s: seq<T>)
    decreases |s|
  {
    && |r| <= |s|
    && (|r| == 0 || (r[0] == s[0] && IsSubseq(r[1..], s[1..])) || IsSubseq(r, s[1..]))
  }

  /** `Array.prototype.filter`. */
  function Filter<T(!new)>(p: T -> bool, s: seq<T>): (r: seq<T>)
    ensures |r| <= |s|
    ensures forall i :: 0 <= i < |r| ==> p(r[i])
    ensures forall x :: x in r <==> x in s && p(x)
    ensures IsSubseq(r, s)
  {
    if |s| == 0 then []
    else
      assert s == [s[0]] + s[1..];
      if p(s[0]) then [s[0]] + Filter(p, s[1..]) else Filter(p, s[1..])
  }

  /** How many elements of `s` satisfy `p`, counted one at a time. */
  function Count<T>(p: T -> bool, s: seq<T>): (n: nat)
    ensures n <= |s|
  {
    if |s| == 0 then 0 else (if p(s[0]) then 1 else 0) + Count(p, s[1..])
  }

  /** A filter keeps exactly as many elements as pass the test. */
  lemma {:induction false} FilterCount<T(!new)>(p: T -> bool, s: seq<T>)
    ensures |Filter(p, s)| == Count(p, s)
    decreases |s|
  {
    if |s| > 0 {
      FilterCount(p, s[1..]);
    }
  }

  /** Counting distributes over concatenation. */
  lemma {:induction false} CountAppend<T>(p: T -> bool, a: seq<T>, b: seq<T>)
    ensures Count(p, a + b) == Count(p, a) + Count(p, b)
    decreases |a|
  {
    if |a| == 0 {
      assert a + b == b;
    } else {
      assert (a + b)[1..] == a[1..] + b;
      CountAppend(p, a[1..], b);
    }
  }

  /** Filtering distributes over concatenation, so it keeps the relative order. */
  lemma {:induction false} FilterAppend<T(!new)>(p: T -> bool, a: seq<T>, b: seq<T>)
    ensures Filter(p, a + b) == Filter(p, a) + Filter(p, b)
    decreases |a|
  {
    if |a| == 0 {
      assert a + b == b;
    } else {
      assert (a + b)[1..] == a[1..] + b;
      FilterAppend(p, a[1..], b);
    }
  }

  /** Two filters in a row keep exactly what one filter on the conjunction keeps. */
  lemma {:induction false} FilterFilter<T(!new)>(p: T -> bool, q: T -> bool, pq: T -> bool, s: seq<T>)
    requires forall x :: pq(x) == (p(x) && q(x))
    ensures Filter(q, Filter(p, s)) == Filter(pq, s)
    decreases |s|
  {
    if |s| > 0 {
      FilterFilter(p, q, pq, s[1..]);
      if p(s[0]) {
        var t := Filter(p, s[1..]);
        assert ([s[0]] + t)[1..] == t;
      }
    }
  }

  /** A filter that every element passes keeps the sequence whole. */
  lemma {:induction false} FilterKeepsAll<T(!new)>(p: T -> bool, s: seq<T>)
    requires forall i :: 0 <= i < |s| ==> p(s[i])
    ensures Filter(p, s) == s
    decreases |s|
  {
    if |s| > 0 {
      FilterKeepsAll(p, s[1..]);
      assert s == [s[0]] + s[1..];
    }
  }

  /** A filter keeps every element exactly when every element passes it. */
  lemma {:induction false} FilterKeepsAllIff<T(!new)>(p: T -> bool, s: seq<T>)
    ensures |Filter(p, s)| == |s| <==> forall i :: 0 <= i < |s| ==> p(s[i])
    decreases |s|
  {
    if |s| > 0 {
      FilterKeepsAllIff(p, s[1..]);
      if |Filter(p, s)| == |s| {
        assert p(s[0]);
        forall i | 1 <= i < |s|
          ensures p(s[i])
        {
          assert s[i] == s[1..][i - 1];
        }
      }
      if forall i :: 0 <= i < |s| ==> p(s[i]) {
        FilterKeepsAll(p, s);
      }
    }
  }

  /** A filter keeps every passing element as often as it occurs, and nothing else. */
  lemma {:induction false} FilterMultiplicity<T(!new)>(p: T -> bool, s: seq<T>)
    ensures forall x :: multiset(Filter(p, s))[x] == if p(x) then multiset(s)[x] else 0
    decreases |s|
  {
    if |s| > 0 {
      FilterMultiplicity(p, s[1..]);
      assert s == [s[0]] + s[1..];
      assert multiset(s) == multiset{s[0]} + multiset(s[1..]);
      if p(s[0]) {
        assert multiset(Filter(p, s)) == multiset{s[0]} + multiset(Filter(p, s[1..]));
      }
    }
  }

  /** Filters that agree position by position keep equally many elements. */
  lemma {:induction false} FilterLengthCongruent<T(!new)>(p: T -> bool, a: seq<T>, b: seq<T>)
    requires |a| == |b|
    requires forall i :: 0 <= i < |a| ==> p(a[i]) == p(b[i])
    ensures |Filter(p, a)| == |Filter(p, b)|
    decreases |a|
  {
    if |a| > 0 {
      FilterLengthCongruent(p, a[1..], b[1..]);
    }
  }

  /** When every element passes exactly one of two filters, the two counts add up. */
  lemma {:induction false} FilterPartition2<T(!new)>(p: T -> bool, q: T -> bool, s: seq<T>)
    requires forall i :: 0 <= i < |s| ==> p(s[i]) != q(s[i])
    ensures |Filter(p, s)| + |Filter(q, s)| == |s|
    decreases |s|
  {
    if |s| > 0 {
      FilterPartition2(p, q, s[1..]);
    }
  }

  /** Three-way version of `FilterPartition2`. */
  lemma {:induction false} FilterPartition3<T(!new)>(p: T -> bool, q: T -> bool, u: T -> bool, s: seq<T>)
    requires forall i :: 0 <= i < |s| ==>
      (if p(s[i]) then 1 else 0) + (if q(s[i]) then 1 else 0) + (if u(s[i]) then 1 else 0) == 1
    ensures |Filter(p, s)| + |Filter(q, s)| + |Filter(u, s)| == |s|
    decreases |s|
  {
    if |s| > 0 {
      FilterPartition3(p, q, u, s[1..]);
    }
  }

  /** A filter implied by another keeps no more elements than it. */
  lemma {:induction false} FilterMonotone<T(!new)>(p: T -> bool, q: T -> bool, s: seq<T>)
    requires forall i :: 0 <= i < |s| ==> p(s[i]) ==> q(s[i])
    ensures |Filter(p, s)| <= |Filter(q, s)|
    decreases |s|
  {
    if |s| > 0 {
      FilterMonotone(p, q, s[1..]);
    }
  }

  /** `Array.prototype.findIndex`, with -1 written as `None`. */
  function FindIndex<T>(p: T -> bool, s: seq<T>): (r: Option<nat>)
    ensures r.Some? ==> r.value < |s| && p(s[r.value])
    ensures r.Some? ==> forall j :: 0 <= j < r.value ==> !p(s[j])
    ensures r.None? <==> forall j :: 0 <= j < |s| ==> !p(s[j])
  {
    if |s| == 0 then None
    else if p(s[0]) then Some(0)
    else
      match FindIndex(p, s[1..])
      case None => None
      case Some(k) => Some(k + 1)
  }

  /** `Array.prototype.find`, with `undefined` written as `None`. */
  function Find<T(!new)>(p: T -> bool, s: seq<T>): (r: Option<T>)
    ensures r.Some? ==> r.value in s && p(r.value)
    ensures r.None? <==> forall x :: x in s ==> !p(x)
    ensures forall i :: 0 <= i < |s| && p(s[i]) && (forall j :: 0 <= j < i ==> !p(s[j])) ==> r == Some(s[i])
  {
    match FindIndex(p, s)
    case Some(i) => Some(s[i])
    case None => None
  }

  /** `Array.prototype.map`. */
  function Map<T, U>(f: T -> U, s: seq<T>): (r: seq<U>)
    ensures |r| == |s|
    ensures forall i :: 0 <= i < |s| ==> r[i] == f(s[i])
  {
    seq(|s|, i requires 0 <= i < |s| => f(s[i]))
  }

  lemma MapAppend<T, U>(f: T -> U, a: seq<T>, b: seq<T>)
    ensures Map(f, a + b) == Map(f, a) + Map(f, b)
  {
  }

  lemma MultisetCancel<T>(x: T, a: multiset<T>, b: multiset<T>)
    requires multiset{x} + a == multiset{x} + b
    ensures a == b
  {
    forall y
      ensures a[y] == b[y]
    {
      assert (multiset{x} + a)[y] == (multiset{x} + b)[y];
    }
  }

  /** Mapping two permutations of each other gives two permutations of each other. */
  lemma {:induction false} MapPreservesPermutation<T, U>(f: T -> U, a: seq<T>, b: seq<T>)
    requires multiset(a) == multiset(b)
    ensures multiset(Map(f, a)) == multiset(Map(f, b))
    decreases |a|
  {
    if |a| == 0 {
      assert |b| == |multiset(b)| == 0;
    } else {
      var x := a[0];
      assert x in multiset(b);
      var k :| 0 <= k < |b| && b[k] == x;
      var front, back := b[..k], b[k + 1..];
      assert b == front + [x] + back;
      assert a == [x] + a[1..];
      assert multiset{x} + multiset(a[1..]) == multiset{x} + multiset(front + back);
      MultisetCancel(x, multiset(a[1..]), multiset(front + back));
      MapPreservesPermutation(f, a[1..], front + back);
      MapAppend(f, [x], a[1..]);
      MapAppend(f, front, back);
      MapAppend(f, front, [x]);
      MapAppend(f, front + [x], back);
      calc {
        multiset(Map(f, a));
        multiset(Map(f, [x]) + Map(f, a[1..]));
        multiset(Map(f, [x])) + multiset(Map(f, front + back));
        multiset(Map(f, [x])) + multiset(Map(f, front)) + multiset(Map(f, back));
        multiset(Map(f, front) + Map(f, [x]) + Map(f, back));
        multiset(Map(f, b));
      }
    }
  }

  /** `slice(0, n)`: the first `n` elements, or all of them when there are fewer. */
  function Take<T>(s: seq<T>, n: nat): (r: seq<T>)
    ensures |r| == if n < |s| then n else |s|
    ensures r <= s
  {
    if n < |s| then s[..n] else s
  }

  /** What `slice(0, n)` keeps is part of what it was given, counting repetitions. */
  lemma TakeSubmultiset<T>(s: seq<T>, n: nat)
    ensures multiset(Take(s, n)) <= multiset(s)
  {
    if n < |s| {
      assert s == s[..n] + s[n..];
    }
  }

  /** `le` is a comparator that `sort` can use: total and transitive. */
  ghost predicate TotalPreorder<T(!new)>(le: (T, T) -> bool) {
    && (forall a, b :: le(a, b) || le(b, a))
    && (forall a, b, c :: le(a, b) && le(b, c) ==> le(a, c))
  }

  ghost predicate SortedBy<T>(le: (T, T) -> bool, s: seq<T>) {
    forall i, j :: 0 <= i < j < |s| ==> le(s[i], s[j])
  }

  /** Places `x` before the first element it may precede, so that equal elements keep their order. */
  function Insert<T(!new)>(le: (T, T) -> bool, x: T, s: seq<T>): (r: seq<T>)
    requires TotalPreorder(le)
    requires SortedBy(le, s)
    ensures SortedBy(le, r)
    ensures multiset(r) == multiset(s) + multiset{x}
    decreases |s|
  {
    if |s| == 0 then [x]
    else if le(x, s[0]) then [x] + s
    else
      var t := Insert(le, x, s[1..]);
      assert s == [s[0]] + s[1..];
      assert forall k :: 0 <= k < |t| ==> le(s[0], t[k]) by {
        forall k | 0 <= k < |t|
          ensures le(s[0], t[k])
        {
          assert t[k] in multiset(t);
          if t[k] != x {
            assert t[k] in multiset(s[1..]);
            var j :| 0 <= j < |s[1..]| && s[1..][j] == t[k];
            assert s[j + 1] == t[k];
          }
        }
      }
      [s[0]] + t
  }

  /**
   * `Array.prototype.sort` with a consistent comparator: the result is ordered by
   * `le` and holds the same elements. Inserting from the back keeps equal
   * elements in their original order, which is the stability the language requires.
   */
  function Sort<T(!new)>(le: (T, T) -> bool, s: seq<T>): (r: seq<T>)
    requires TotalPreorder(le)
    ensures SortedBy(le, r)
    ensures multiset(r) == multiset(s)
    ensures |r| == |s|
    ensures forall x :: x in r <==> x in s
    decreases |s|
  {
    if |s| == 0 then []
    else
      assert s == [s[0]] + s[1..];
      var r := Insert(le, s[0], Sort(le, s[1..]));
      assert forall x :: x in r <==> x in multiset(r);
      r
  }

  /** The elements `le` ranks level with `x`: those it may place on either side of `x`. */
  function Ties<T>(le: (T, T) -> bool, x: T): T -> bool {
    (y: T) => le(x, y) && le(y, x)
  }

  /** Inserting `y` puts it ahead of every element tied with it, and leaves the others' order alone. */
  lemma {:induction false} InsertKeepsTies<T(!new)>(le: (T, T) -> bool, x: T, y: T, t: seq<T>)
    requires TotalPreorder(le)
    requires SortedBy(le, t)
    ensures Filter(Ties(le, x), Insert(le, y, t))
         == if Ties(le, x)(y) then [y] + Filter(Ties(le, x), t) else Filter(Ties(le, x), t)
    decreases |t|
  {
    var p := Ties(le, x);
    var r := Insert(le, y, t);
    if |t| == 0 {
      assert r == [y] + t;
      assert r[1..] == t;
    } else if le(y, t[0]) {
      assert r == [y] + t;
      assert r[1..] == t;
    } else {
      InsertKeepsTies(le, x, y, t[1..]);
      assert r[0] == t[0] && r[1..] == Insert(le, y, t[1..]);
      if p(y) {
        assert !p(t[0]);
      }
    }
  }

  /**
   * Stability: the elements tied with any `x` come out of `Sort` in the order
   * they went in.
   */
  lemma {:induction false} SortKeepsTies<T(!new)>(le: (T, T) -> bool, x: T, s: seq<T>)
    requires TotalPreorder(le)
    ensures Filter(Ties(le, x), Sort(le, s)) == Filter(Ties(le, x), s)
    decreases |s|
  {
    if |s| > 0 {
      SortKeepsTies(le, x, s[1..]);
      InsertKeepsTies(le, x, s[0], Sort(le, s[1..]));
    }
  }

  /** A prefix of a sorted sequence is sorted. */
  lemma TakeSorted<T>(le: (T, T) -> bool, s: seq<T>, n: nat)
    requires SortedBy(le, s)
    ensures SortedBy(le, Take(s, n))
  {
  }

  /**
   * Keeping the first `n` elements of a sorted permutation of `s` keeps the
   * smallest ones: every element of `s` left out comes after every element kept.
   */
  lemma SortedTakeKeepsSmallest<T>(le: (T, T) -> bool, s: seq<T>, r: seq<T>, n: nat)
    requires SortedBy(le, r)
    requires multiset(r) == multiset(s)
    ensures forall x, y :: y in Take(r, n) && x in multiset(s) - multiset(Take(r, n)) ==> le(y, x)
  {
    if n < |r| {
      assert r == r[..n] + r[n..];
      forall x, y | y in Take(r, n) && x in multiset(s) - multiset(Take(r, n))
        ensures le(y, x)
      {
        assert x in multiset(r[n..]);
        var i :| 0 <= i < |r[n..]| && r[n..][i] == x;
        var j :| 0 <= j < n && r[j] == y;
        assert r[n + i] == x;
      }
    }
  }
}
