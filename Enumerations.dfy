/*
  Nested index loops. m nested loops over the n events of a list, where
  the loop at depth d starts just after the index of depth d - 1 and stops
  before n - (m - 1 - d), visit the strictly increasing m-tuples of
  indices below n in lexicographic order. Enum lists the visited tuples a
  filter accepts, in visiting order; EnumCount proves it holds each
  accepted tuple exactly once and nothing else.
*/
module Enumerations {

  /** A tuple of indices, outermost loop first. */
  type Tuple = seq<nat>

  /** The exclusive bound of the loop at depth d of m nested loops over n items. */
  function Bound(n: nat, m: nat, d: nat): int
  {
    n - (m - 1 - d)
  }

  /** A tuple the loops can reach: m indices, each below its loop's bound, strictly increasing. */
  predicate Admissible(n: nat, m: nat, t: Tuple)
  {
    |t| == m
    && (forall d :: 0 <= d < m ==> t[d] < Bound(n, m, d))
    && (forall d :: 0 < d < m ==> t[d - 1] < t[d])
  }

  /** The tuples with the given prefix the remaining loops visit from lo and ok accepts, in visiting order. */
  function Enum(n: nat, m: nat, ok: Tuple -> bool, p: Tuple, lo: nat): seq<Tuple>
    requires |p| <= m
    decreases m - |p|, 1, 0
  {
    if |p| == m then (if ok(p) then [p] else [])
    else Span(n, m, ok, p, lo, Bound(n, m, |p|))
  }

  /** The loop after prefix p, run over indices [lo, hi). */
  function Span(n: nat, m: nat, ok: Tuple -> bool, p: Tuple, lo: nat, hi: int): seq<Tuple>
    requires |p| < m
    decreases m - |p|, 0, hi - lo
  {
    if hi <= lo then []
    else Span(n, m, ok, p, lo, hi - 1) + Enum(n, m, ok, p + [hi - 1], hi)
  }

  /** Every listed tuple is complete and accepted. */
  lemma {:induction false} EnumMembers(n: nat, m: nat, ok: Tuple -> bool, p: Tuple, lo: nat)
    requires |p| <= m
    ensures forall t :: t in Enum(n, m, ok, p, lo) ==> |t| == m && ok(t)
    decreases m - |p|, 1, 0
  {
    if |p| < m {
      SpanMembers(n, m, ok, p, lo, Bound(n, m, |p|));
    }
  }

  lemma {:induction false} SpanMembers(n: nat, m: nat, ok: Tuple -> bool, p: Tuple, lo: nat, hi: int)
    requires |p| < m
    ensures forall t :: t in Span(n, m, ok, p, lo, hi) ==> |t| == m && ok(t)
    decreases m - |p|, 0, hi - lo
  {
    if hi > lo {
      SpanMembers(n, m, ok, p, lo, hi - 1);
      EnumMembers(n, m, ok, p + [hi - 1], hi);
    }
  }

  /** When no complete tuple with prefix p is accepted, the remaining loops list nothing. */
  lemma {:induction false} EnumNone(n: nat, m: nat, ok: Tuple -> bool, p: Tuple, lo: nat)
    requires |p| <= m
    requires forall t :: |t| == m && t[..|p|] == p ==> !ok(t)
    ensures Enum(n, m, ok, p, lo) == []
    decreases m - |p|, 1, 0
  {
    if |p| == m {
      assert p[..|p|] == p;
    } else {
      SpanNone(n, m, ok, p, lo, Bound(n, m, |p|));
    }
  }

  lemma {:induction false} SpanNone(n: nat, m: nat, ok: Tuple -> bool, p: Tuple, lo: nat, hi: int)
    requires |p| < m
    requires forall t :: |t| == m && t[..|p|] == p ==> !ok(t)
    ensures Span(n, m, ok, p, lo, hi) == []
    decreases m - |p|, 0, hi - lo
  {
    if hi > lo {
      SpanNone(n, m, ok, p, lo, hi - 1);
      var q := p + [hi - 1];
      forall t | |t| == m && t[..|q|] == q ensures !ok(t) {
        assert t[..|p|] == t[..|q|][..|p|];
      }
      EnumNone(n, m, ok, q, hi);
    }
  }

  /** The prefix is one the enclosing loops can reach, and lo is past its last index. */
  predicate PrefixFits(n: nat, m: nat, p: Tuple, lo: nat)
  {
    |p| <= m
    && (forall d :: 0 <= d < |p| ==> p[d] < Bound(n, m, d))
    && (forall d :: 0 < d < |p| ==> p[d - 1] < p[d])
    && (|p| > 0 ==> p[|p| - 1] < lo)
  }

  /** A reachable tuple that extends p and whose next index is at least lo. */
  predicate Extends(n: nat, m: nat, p: Tuple, lo: nat, t: Tuple)
    requires |p| <= m
  {
    Admissible(n, m, t) && t[..|p|] == p && (|p| < m ==> lo <= t[|p|])
  }

  /** Extending the prefix by x, and moving on past x, selects the extensions whose next index is x. */
  lemma ExtendsStep(n: nat, m: nat, p: Tuple, lo: nat, x: nat, t: Tuple)
    requires |p| < m && lo <= x
    ensures Extends(n, m, p + [x], x + 1, t) <==> Extends(n, m, p, lo, t) && t[|p|] == x
  {
    var q := p + [x];
    if Extends(n, m, p, lo, t) && t[|p|] == x {
      assert t[..|q|] == t[..|p|] + [t[|p|]];
      if |q| < m {
        assert t[|p|] < t[|p| + 1];
      }
    }
    if Extends(n, m, q, x + 1, t) {
      assert t[..|p|] == t[..|q|][..|p|];
      assert t[|p|] == t[..|q|][|p|];
    }
  }

  /** The listed tuples are exactly the reachable, accepted extensions of p, each once. */
  lemma {:induction false} EnumCount(n: nat, m: nat, ok: Tuple -> bool, p: Tuple, lo: nat, t: Tuple)
    requires PrefixFits(n, m, p, lo)
    ensures multiset(Enum(n, m, ok, p, lo))[t] == if Extends(n, m, p, lo, t) && ok(t) then 1 else 0
    decreases m - |p|, 1, 0
  {
    if |p| == m {
      if t == p {
        assert t[..|p|] == p;
      }
      if Extends(n, m, p, lo, t) {
        assert t == t[..|p|];
      }
    } else {
      SpanCount(n, m, ok, p, lo, Bound(n, m, |p|), t);
    }
  }

  /** Entering the next loop at index x keeps the prefix reachable. */
  lemma PrefixFitsStep(n: nat, m: nat, p: Tuple, lo: nat, x: nat)
    requires PrefixFits(n, m, p, lo) && |p| < m && lo <= x < Bound(n, m, |p|)
    ensures PrefixFits(n, m, p + [x], x + 1)
  {
    var q := p + [x];
    forall d | 0 < d < |q| ensures q[d - 1] < q[d] {
      if d == |p| {
        assert q[d - 1] == p[|p| - 1];
      } else {
        assert q[d - 1] == p[d - 1] && q[d] == p[d];
      }
    }
  }

  lemma {:induction false} SpanCount(n: nat, m: nat, ok: Tuple -> bool, p: Tuple, lo: nat, hi: int, t: Tuple)
    requires PrefixFits(n, m, p, lo) && |p| < m
    requires hi <= Bound(n, m, |p|)
    ensures multiset(Span(n, m, ok, p, lo, hi))[t] ==
      if Extends(n, m, p, lo, t) && ok(t) && t[|p|] < hi then 1 else 0
    decreases m - |p|, 0, hi - lo
  {
    if hi > lo {
      var x: nat := hi - 1;
      SpanCount(n, m, ok, p, lo, x, t);
      PrefixFitsStep(n, m, p, lo, x);
      EnumCount(n, m, ok, p + [x], hi, t);
      ExtendsStep(n, m, p, lo, x, t);
    } else if Extends(n, m, p, lo, t) {
      assert lo <= t[|p|];
    }
  }

  /** The complete enumeration holds every reachable accepted tuple exactly once. */
  lemma Exactly(n: nat, m: nat, ok: Tuple -> bool, t: Tuple)
    ensures multiset(Enum(n, m, ok, [], 0))[t] == if Admissible(n, m, t) && ok(t) then 1 else 0
  {
    EnumCount(n, m, ok, [], 0, t);
  }

  /** Reachable means strictly increasing with the last index below n. */
  lemma AdmissibleIff(n: nat, m: nat, t: Tuple)
    requires m > 0
    ensures Admissible(n, m, t) <==>
      |t| == m && t[m - 1] < n && forall d :: 0 < d < m ==> t[d - 1] < t[d]
  {
    if |t| == m && t[m - 1] < n && forall d :: 0 < d < m ==> t[d - 1] < t[d] {
      forall d | 0 <= d < m ensures t[d] < Bound(n, m, d) {
        BelowLast(t, d, m);
      }
    }
  }

  /** In a strictly increasing tuple, index d is at least m - 1 - d below the last. */
  lemma {:induction false} BelowLast(t: Tuple, d: nat, m: nat)
    requires |t| == m && d < m
    requires forall e :: 0 < e < m ==> t[e - 1] < t[e]
    ensures t[d] + (m - 1 - d) <= t[m - 1]
    decreases m - d
  {
    if d < m - 1 {
      BelowLast(t, d + 1, m);
    }
  }
}
