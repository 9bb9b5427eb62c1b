/** Sequence helpers shared by the page models: an optional value (JavaScript's
    `null`/`undefined`), `Array.prototype.filter`, a sum, and the ordered
    sub-sequence relation that `filter` produces. */
module Seqs {

  datatype Option<T> = None | Some(value: T) {
    /** `x || d` for a value whose absence is falsy. */
    function GetOr(default: T): T {
      match this
      case Some(v) => v
      case None => default
    }
  }

  /** `s.filter(p)`: the elements of `s` that satisfy `p`, in their original order. */
  function Filter<T(!new)>(s: seq<T>, p: T -> bool): (r: seq<T>)
    ensures |r| <= |s|
    ensures forall x :: x in r <==> x in s && p(x)
    ensures forall i :: 0 <= i < |r| ==> p(r[i])
    ensures forall x :: multiset(r)[x] == if p(x) then multiset(s)[x] else 0
  {
    if s == [] then []
    else
      assert s == [s[0]] + s[1..];
      (if p(s[0]) then [s[0]] else []) + Filter(s[1..], p)
  }

  /** `a` is `b` with some elements left out, the others in the same order. */
  predicate IsSubsequence<T(==)>(a: seq<T>, b: seq<T>)
    decreases |b|
  {
    if b == [] then a == []
    else (a != [] && a[0] == b[0] && IsSubsequence(a[1..], b[1..])) || IsSubsequence(a, b[1..])
  }

  /** `filter` keeps the original order: its result is a sub-sequence of its input. */
  lemma {:induction false} FilterIsSubsequence<T(!new)>(s: seq<T>, p: T -> bool)
    ensures IsSubsequence(Filter(s, p), s)
  {
    if s != [] {
      FilterIsSubsequence(s[1..], p);
      if p(s[0]) {
        assert Filter(s, p) == [s[0]] + Filter(s[1..], p);
        assert (Filter(s, p))[1..] == Filter(s[1..], p);
      } else {
        assert Filter(s, p) == Filter(s[1..], p);
      }
    }
  }

  /** Three filters with pairwise exclusive predicates together keep at most the whole input. */
  lemma {:induction false} DisjointFiltersBounded<T(!new)>(s: seq<T>, p: T -> bool, q: T -> bool, r: T -> bool)
    requires forall x :: !(p(x) && q(x)) && !(p(x) && r(x)) && !(q(x) && r(x))
    ensures |Filter(s, p)| + |Filter(s, q)| + |Filter(s, r)| <= |s|
  {
    if s != [] {
      DisjointFiltersBounded(s[1..], p, q, r);
    }
  }

  /** Filtering twice is filtering once by both predicates. */
  lemma {:induction false} FilterFilter<T(!new)>(s: seq<T>, p: T -> bool, q: T -> bool, pq: T -> bool)
    requires forall x :: pq(x) == (p(x) && q(x))
    ensures Filter(Filter(s, p), q) == Filter(s, pq)
  {
    if s != [] {
      var rest := Filter(s[1..], p);
      FilterFilter(s[1..], p, q, pq);
      if p(s[0]) {
        calc {
          Filter(Filter(s, p), q);
          Filter([s[0]] + rest, q);
          { assert ([s[0]] + rest)[1..] == rest; }
          (if q(s[0]) then [s[0]] else []) + Filter(rest, q);
        }
      } else {
        assert Filter(s, p) == rest;
      }
    }
  }

  /** `s.some(p)`. */
  function Any<T(!new)>(s: seq<T>, p: T -> bool): (r: bool)
    ensures r <==> exists x :: x in s && p(x)
  {
    if s == [] then false
    else
      assert forall x :: x in s <==> x == s[0] || x in s[1..];
      p(s[0]) || Any(s[1..], p)
  }

  /** `s.reduce((acc, x) => acc + f(x), 0)`. */
  function SumOf<T>(s: seq<T>, f: T -> int): int {
    if s == [] then 0 else f(s[0]) + SumOf(s[1..], f)
  }

  /** The sum splits off its last element. */
  lemma {:induction false} SumOfSnoc<T>(s: seq<T>, f: T -> int)
    requires s != []
    ensures SumOf(s, f) == SumOf(s[..|s| - 1], f) + f(s[|s| - 1])
  {
    if |s| > 1 {
      SumOfSnoc(s[1..], f);
      assert s[1..][..|s| - 2] == s[..|s| - 1][1..];
    }
  }
}
