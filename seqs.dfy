/** Sequence combinators that stand for JavaScript's `Array.prototype.map`, `filter`, `sort` and `slice`. */
module Seqs {

  function Min(a: int, b: int): int { if a <= b then a else b }

  /** `s.map(f)`. */
  function Map<A, B>(f: A -> B, s: seq<A>): (r: seq<B>)
    ensures |r| == |s|
    ensures forall i :: 0 <= i < |s| ==> r[i] == f(s[i])
  {
    seq(|s|, i requires 0 <= i < |s| => f(s[i]))
  }

  lemma MapAppend<A, B>(f: A -> B, a: seq<A>, b: seq<A>)
    ensures Map(f, a + b) == Map(f, a) + Map(f, b)
  {
  }

  /** `s.filter(keep)`: the elements that satisfy `keep`, in their original order. */
  function Filter<T(!new)>(keep: T -> bool, s: seq<T>): (r: seq<T>)
    ensures |r| <= |s|
    ensures forall x :: x in r <==> x in s && keep(x)
    ensures forall i :: 0 <= i < |r| ==> keep(r[i])
  {
    if s == [] then [] else (if keep(s[0]) then [s[0]] else []) + Filter(keep, s[1..])
  }

  lemma {:induction false} FilterAll<T(!new)>(keep: T -> bool, s: seq<T>)
    requires forall i :: 0 <= i < |s| ==> keep(s[i])
    ensures Filter(keep, s) == s
  {
    if s != [] {
      FilterAll(keep, s[1..]);
    }
  }

  /** `s.filter(keep)` keeps every copy of a kept element and no copy of a dropped one. */
  lemma {:induction false} FilterMultiset<T(!new)>(keep: T -> bool, s: seq<T>)
    ensures forall x :: multiset(Filter(keep, s))[x] == if keep(x) then multiset(s)[x] else 0
  {
    if s != [] {
      FilterMultiset(keep, s[1..]);
      assert s == [s[0]] + s[1..];
      assert Filter(keep, s) == (if keep(s[0]) then [s[0]] else []) + Filter(keep, s[1..]);
    }
  }

  /** `a` is obtained from `b` by deleting elements, without reordering what is left. */
  predicate IsSubsequence<T(==)>(a: seq<T>, b: seq<T>)
    decreases |b|
  {
    a == [] || (b != [] && ((a[0] == b[0] && IsSubsequence(a[1..], b[1..])) || IsSubsequence(a, b[1..])))
  }

  lemma {:induction false} FilterIsSubsequence<T(!new)>(keep: T -> bool, s: seq<T>)
    ensures IsSubsequence(Filter(keep, s), s)
  {
    if s != [] {
      FilterIsSubsequence(keep, s[1..]);
      if keep(s[0]) {
        assert Filter(keep, s) == [s[0]] + Filter(keep, s[1..]);
      } else {
        assert Filter(keep, s) == Filter(keep, s[1..]);
        if Filter(keep, s) != [] {
          assert IsSubsequence(Filter(keep, s), s[1..]);
        }
      }
    }
  }

  /** The sequences of `ss` laid end to end. */
  function Concat<T>(ss: seq<seq<T>>): (r: seq<T>)
    decreases |ss|
  {
    if ss == [] then [] else ss[0] + Concat(ss[1..])
  }

  lemma {:induction false} ConcatSnoc<T>(ss: seq<seq<T>>, s: seq<T>)
    ensures Concat(ss + [s]) == Concat(ss) + s
    decreases |ss|
  {
    if ss == [] {
      assert ss + [s] == [s];
    } else {
      assert (ss + [s])[1..] == ss[1..] + [s];
      ConcatSnoc(ss[1..], s);
    }
  }

  /** `s.substring(0, n)` / `s.slice(0, n)`: at most the first `n` elements. */
  function Take<T>(s: seq<T>, n: nat): (r: seq<T>)
    ensures |r| == Min(n, |s|)
    ensures r == s[..|r|]
  {
    if n <= |s| then s[..n] else s
  }

  // ---------------------------------------------------------------------------
  // Sorting. JavaScript's `Array.prototype.sort` is stable (ECMAScript 2019); it is
  // modelled by a stable insertion sort under a caller-given "may come first" relation.

  ghost predicate Total<T(!new)>(le: (T, T) -> bool) {
    forall a, b :: le(a, b) || le(b, a)
  }

  /** Every element may come before its successor. */
  predicate Sorted<T>(le: (T, T) -> bool, s: seq<T>) {
    forall i :: 0 < i < |s| ==> le(s[i - 1], s[i])
  }

  /** Place `x` in front of the first element it may precede. */
  function Insert<T>(le: (T, T) -> bool, x: T, s: seq<T>): (r: seq<T>)
    ensures multiset(r) == multiset(s) + multiset{x}
    ensures |r| == |s| + 1
  {
    if s == [] || le(x, s[0]) then [x] + s
    else
      assert s == [s[0]] + s[1..];
      [s[0]] + Insert(le, x, s[1..])
  }

  function InsertionSort<T>(le: (T, T) -> bool, s: seq<T>): (r: seq<T>)
    ensures multiset(r) == multiset(s)
    ensures |r| == |s|
  {
    if s == [] then []
    else
      assert s == [s[0]] + s[1..];
      Insert(le, s[0], InsertionSort(le, s[1..]))
  }

  lemma {:induction false} InsertSorted<T(!new)>(le: (T, T) -> bool, x: T, s: seq<T>)
    requires Total(le)
    requires Sorted(le, s)
    ensures Sorted(le, Insert(le, x, s))
    ensures Insert(le, x, s)[0] == x || (s != [] && Insert(le, x, s)[0] == s[0])
  {
    if s != [] && !le(x, s[0]) {
      assert le(s[0], x);
      InsertSorted(le, x, s[1..]);
      var t := Insert(le, x, s[1..]);
      assert Insert(le, x, s) == [s[0]] + t;
      forall i | 0 < i < |t| + 1
        ensures le(([s[0]] + t)[i - 1], ([s[0]] + t)[i])
      {
        if i == 1 {
          assert ([s[0]] + t)[1] == t[0];
        } else {
          assert ([s[0]] + t)[i - 1] == t[i - 2];
        }
      }
    }
  }

  lemma {:induction false} InsertionSortSorted<T(!new)>(le: (T, T) -> bool, s: seq<T>)
    requires Total(le)
    ensures Sorted(le, InsertionSort(le, s))
  {
    if s != [] {
      InsertionSortSorted(le, s[1..]);
      InsertSorted(le, s[0], InsertionSort(le, s[1..]));
    }
  }

  /** Insertion sort leaves a sequence alone when each element may stand before the next. */
  lemma {:induction false} InsertionSortOfSorted<T>(le: (T, T) -> bool, s: seq<T>)
    requires forall i :: 0 < i < |s| ==> le(s[i - 1], s[i])
    ensures InsertionSort(le, s) == s
    decreases |s|
  {
    if s != [] {
      var t := s[1..];
      ChainedTail(le, s);
      InsertionSortOfSorted(le, t);
      InsertAtFront(le, s[0], t);
      assert s == [s[0]] + t;
    }
  }

  lemma ChainedTail<T>(le: (T, T) -> bool, s: seq<T>)
    requires s != []
    requires forall i :: 0 < i < |s| ==> le(s[i - 1], s[i])
    ensures forall i :: 0 < i < |s[1..]| ==> le(s[1..][i - 1], s[1..][i])
    ensures |s| > 1 ==> le(s[0], s[1..][0])
  {
    forall i | 0 < i < |s[1..]| ensures le(s[1..][i - 1], s[1..][i]) {
      assert s[1..][i - 1] == s[i] && s[1..][i] == s[i + 1];
    }
  }

  lemma InsertAtFront<T>(le: (T, T) -> bool, x: T, t: seq<T>)
    requires t == [] || le(x, t[0])
    ensures Insert(le, x, t) == [x] + t
  {
  }

  lemma MultisetSameElements<T>(a: seq<T>, b: seq<T>)
    requires multiset(a) == multiset(b)
    ensures forall x :: x in a <==> x in b
  {
    forall x ensures x in a <==> x in b {
      assert x in a <==> x in multiset(a);
      assert x in b <==> x in multiset(b);
    }
  }
}
