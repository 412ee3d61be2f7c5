/**
  Row-wise operations on tables held as sequences: boolean-mask selection
  (`df[mask]`), column projection, first-match lookup and `[:n]` slicing,
  with the laws the rule engine relies on.
 */
module Seqs {
  import opened Wrappers

  /** `a` is obtained from `b` by deleting elements, keeping the rest in order. */
  ghost predicate IsSubsequence<T>(a: seq<T>, b: seq<T>)
    decreases |b|
  {
    if |a| == 0 then true
    else if |b| == 0 then false
    else (a[0] == b[0] && IsSubsequence(a[1..], b[1..])) || IsSubsequence(a, b[1..])
  }

  /** The rows of `s` for which the mask `p` holds, in their original order (pandas `df[mask]`). */
  function Where<T>(s: seq<T>, p: T -> bool): (r: seq<T>)
    ensures |r| <= |s|
    ensures forall k | 0 <= k < |r| :: r[k] in s && p(r[k])
    ensures forall k | 0 <= k < |s| && p(s[k]) :: s[k] in r
  {
    if |s| == 0 then []
    else if p(s[0]) then [s[0]] + Where(s[1..], p)
    else Where(s[1..], p)
  }

  /** A mask that rejects every row selects nothing. */
  lemma {:induction false} WhereNothing<T>(s: seq<T>, p: T -> bool)
    requires forall k | 0 <= k < |s| :: !p(s[k])
    ensures Where(s, p) == []
    decreases |s|
  {
    if |s| > 0 {
      WhereNothing(s[1..], p);
    }
  }

  /** Selection deletes rows but never reorders them. */
  lemma {:induction false} WhereIsSubsequence<T>(s: seq<T>, p: T -> bool)
    ensures IsSubsequence(Where(s, p), s)
    decreases |s|
  {
    if |s| > 0 {
      WhereIsSubsequence(s[1..], p);
      var w := Where(s[1..], p);
      if p(s[0]) {
        assert Where(s, p) == [s[0]] + w;
        assert ([s[0]] + w)[1..] == w;
      } else {
        SubsequenceOfTail(w, s);
      }
    }
  }

  lemma SubsequenceOfTail<T>(a: seq<T>, b: seq<T>)
    requires |b| > 0
    requires IsSubsequence(a, b[1..])
    ensures IsSubsequence(a, b)
  {
  }

  /** Selection keeps every copy of a row the mask accepts and no copy of one it rejects. */
  lemma {:induction false} WhereCount<T>(s: seq<T>, p: T -> bool)
    ensures forall x :: multiset(Where(s, p))[x] == if p(x) then multiset(s)[x] else 0
    decreases |s|
  {
    if |s| > 0 {
      WhereCount(s[1..], p);
      assert s == [s[0]] + s[1..];
      assert multiset(s) == multiset{s[0]} + multiset(s[1..]);
      if p(s[0]) {
        assert multiset(Where(s, p)) == multiset{s[0]} + multiset(Where(s[1..], p));
      }
    }
  }

  /** Two successive selections are one selection by the conjunction of the masks. */
  lemma {:induction false} WhereFusion<T>(s: seq<T>, p: T -> bool, q: T -> bool, pq: T -> bool)
    requires forall x :: pq(x) == (p(x) && q(x))
    ensures Where(Where(s, p), q) == Where(s, pq)
    decreases |s|
  {
    if |s| > 0 {
      WhereFusion(s[1..], p, q, pq);
      if p(s[0]) {
        assert Where(s, p)[1..] == Where(s[1..], p);
      }
    }
  }

  /** Selecting twice by the same mask selects nothing more. */
  lemma {:induction false} WhereIdempotent<T>(s: seq<T>, p: T -> bool)
    ensures Where(Where(s, p), p) == Where(s, p)
  {
    WhereFusion(s, p, p, p);
  }

  /** A column of a table: `f` applied to every row, in order. */
  function Project<T, U>(s: seq<T>, f: T -> U): (r: seq<U>)
    ensures |r| == |s|
    ensures forall k | 0 <= k < |s| :: r[k] == f(s[k])
  {
    seq(|s|, k requires 0 <= k < |s| => f(s[k]))
  }

  /** Selecting rows by a mask that reads only one column, then projecting that column,
      is projecting first and selecting afterwards. */
  lemma {:induction false} ProjectWhere<T, U>(s: seq<T>, f: T -> U, p: T -> bool, q: U -> bool)
    requires forall x :: p(x) == q(f(x))
    ensures Project(Where(s, p), f) == Where(Project(s, f), q)
    decreases |s|
  {
    if |s| > 0 {
      ProjectWhere(s[1..], f, p, q);
      assert Project(s, f)[1..] == Project(s[1..], f);
      if p(s[0]) {
        assert Project(Where(s, p), f) == [f(s[0])] + Project(Where(s[1..], p), f);
      }
    }
  }

  /** Masks that agree on every row select the same rows. */
  lemma {:induction false} WhereCongruence<T>(s: seq<T>, p: T -> bool, q: T -> bool)
    requires forall k | 0 <= k < |s| :: p(s[k]) == q(s[k])
    ensures Where(s, p) == Where(s, q)
    decreases |s|
  {
    if |s| > 0 {
      assert forall k | 0 <= k < |s| - 1 :: s[1..][k] == s[k + 1];
      WhereCongruence(s[1..], p, q);
    }
  }

  /** Projecting through `g` after `f` is projecting through their composition. */
  lemma ProjectProject<T, U, V>(s: seq<T>, f: T -> U, g: U -> V, h: T -> V)
    requires forall x :: h(x) == g(f(x))
    ensures Project(Project(s, f), g) == Project(s, h)
  {
  }

  /** `i` is the position of the first row satisfying `p`. */
  predicate IsFirstMatch<T>(s: seq<T>, p: T -> bool, i: nat) {
    i < |s| && p(s[i]) && forall j | 0 <= j < i :: !p(s[j])
  }

  /** The position of the first row satisfying `p`, or None when no row does. */
  function FirstIndex<T>(s: seq<T>, p: T -> bool): (r: Option<nat>)
    ensures r.Some? ==> IsFirstMatch(s, p, r.value)
    ensures r.None? <==> forall j | 0 <= j < |s| :: !p(s[j])
  {
    if |s| == 0 then None
    else if p(s[0]) then Some(0)
    else
      match FirstIndex(s[1..], p)
      case None => None
      case Some(k) => Some(k + 1)
  }

  function Min(a: int, b: int): int {
    if a <= b then a else b
  }

  /** The slice `s[:n]`: the first `n` elements, or all of them when there are fewer. */
  function Take<T>(s: seq<T>, n: nat): (r: seq<T>)
    ensures |r| == Min(n, |s|)
    ensures forall k | 0 <= k < |r| :: r[k] == s[k]
  {
    if |s| <= n then s else s[..n]
  }
}
