/** Sequence helpers shared by the query filters, the list pages and the
    totals: optional values, order-preserving filtering, sums, and the
    clamping `slice` of JavaScript arrays. */
module Seqs {

  datatype Option<T> = None | Some(value: T)

  /** `r` keeps some of the elements of `s`, in their original order. */
  predicate IsSubseq<T(==)>(r: seq<T>, s: seq<T>)
    decreases |s|
  {
    r == [] || (s != [] && ((r[0] == s[0] && IsSubseq(r[1..], s[1..])) || IsSubseq(r, s[1..])))
  }

  lemma {:induction false} IsSubseqRefl<T>(s: seq<T>)
    ensures IsSubseq(s, s)
  {
    if s != [] {
      IsSubseqRefl(s[1..]);
    }
  }

  /** A subsequence of a subsequence of `c` is a subsequence of `c`. */
  lemma {:induction false} IsSubseqTrans<T>(a: seq<T>, b: seq<T>, c: seq<T>)
    requires IsSubseq(a, b) && IsSubseq(b, c)
    ensures IsSubseq(a, c)
    decreases |c|
  {
    if a != [] {
      if b[0] == c[0] && IsSubseq(b[1..], c[1..]) {
        if a[0] == b[0] && IsSubseq(a[1..], b[1..]) {
          IsSubseqTrans(a[1..], b[1..], c[1..]);
        } else {
          IsSubseqTrans(a, b[1..], c[1..]);
        }
      } else {
        IsSubseqTrans(a, b, c[1..]);
      }
    }
  }

  /** The elements of `s` that satisfy `p`, in order (a queryset `.filter`,
      a JavaScript `Array.prototype.filter`). */
  function Filter<T>(s: seq<T>, p: T -> bool): (r: seq<T>)
    ensures |r| <= |s|
  {
    if s == [] then []
    else (if p(s[0]) then [s[0]] else []) + Filter(s[1..], p)
  }

  /** The filter keeps exactly the elements of `s` that satisfy `p`. */
  lemma {:induction false} FilterMembers<T>(s: seq<T>, p: T -> bool)
    ensures forall x :: x in Filter(s, p) <==> x in s && p(x)
    ensures forall i :: 0 <= i < |Filter(s, p)| ==> p(Filter(s, p)[i])
  {
    if s != [] {
      FilterMembers(s[1..], p);
      assert s == [s[0]] + s[1..];
    }
  }

  /** The filter keeps every element that satisfies `p` as many times as
      `s` holds it, and no other. */
  lemma {:induction false} FilterMultiset<T>(s: seq<T>, p: T -> bool)
    ensures forall x :: multiset(Filter(s, p))[x] == if p(x) then multiset(s)[x] else 0
  {
    if s != [] {
      FilterMultiset(s[1..], p);
      assert s == [s[0]] + s[1..];
      assert multiset(s) == multiset([s[0]]) + multiset(s[1..]);
      var head := if p(s[0]) then [s[0]] else [];
      assert multiset(Filter(s, p)) == multiset(head) + multiset(Filter(s[1..], p));
    }
  }

  lemma {:induction false} FilterIsSubseq<T>(s: seq<T>, p: T -> bool)
    ensures IsSubseq(Filter(s, p), s)
  {
    if s != [] {
      FilterIsSubseq(s[1..], p);
      var rest := Filter(s[1..], p);
      if p(s[0]) {
        assert Filter(s, p) == [s[0]] + rest;
        assert ([s[0]] + rest)[1..] == rest;
      } else {
        assert Filter(s, p) == rest;
        if rest != [] {
          assert IsSubseq(rest, s[1..]);
        }
      }
    }
  }

  /** Filtering twice is filtering once by the conjunction. */
  lemma {:induction false} FilterFilter<T>(s: seq<T>, p: T -> bool, q: T -> bool)
    ensures Filter(Filter(s, p), q) == Filter(s, x => p(x) && q(x))
  {
    if s != [] {
      FilterFilter(s[1..], p, q);
      var head := if p(s[0]) then [s[0]] else [];
      FilterAppend(head, Filter(s[1..], p), q);
    }
  }

  lemma {:induction false} FilterAppend<T>(a: seq<T>, b: seq<T>, p: T -> bool)
    ensures Filter(a + b, p) == Filter(a, p) + Filter(b, p)
  {
    if a != [] {
      assert (a + b)[1..] == a[1..] + b;
      FilterAppend(a[1..], b, p);
    } else {
      assert a + b == b;
    }
  }

  /** A filter whose predicate holds everywhere changes nothing. */
  lemma {:induction false} FilterAll<T>(s: seq<T>, p: T -> bool)
    requires forall i :: 0 <= i < |s| ==> p(s[i])
    ensures Filter(s, p) == s
  {
    if s != [] {
      FilterAll(s[1..], p);
    }
  }

  /** A filter whose predicate holds everywhere except perhaps at `k` keeps
      everything but possibly the element at `k`. */
  lemma {:induction false} FilterAllBut<T>(s: seq<T>, k: nat, p: T -> bool)
    requires k < |s|
    requires forall i :: 0 <= i < |s| && i != k ==> p(s[i])
    ensures Filter(s, p) == s[..k] + (if p(s[k]) then [s[k]] else []) + s[k + 1..]
  {
    FilterAllSlice(s, 0, k, p);
    FilterAllSlice(s, k + 1, |s|, p);
    assert s[0..k] == s[..k] && s[k + 1..|s|] == s[k + 1..];
    assert s == s[..k] + [s[k]] + s[k + 1..];
    FilterAroundOne(s[..k], s[k], s[k + 1..], p);
  }

  /** Filtering `a + [x] + b` where `a` and `b` pass entirely. */
  lemma {:induction false} FilterAroundOne<T>(a: seq<T>, x: T, b: seq<T>, p: T -> bool)
    requires Filter(a, p) == a && Filter(b, p) == b
    ensures Filter(a + [x] + b, p) == a + (if p(x) then [x] else []) + b
  {
    assert Filter([x], p) == (if p(x) then [x] else []) by {
      assert [x][1..] == [];
    }
    FilterAppend(a + [x], b, p);
    FilterAppend(a, [x], p);
  }

  lemma {:induction false} FilterAllSlice<T>(s: seq<T>, lo: nat, hi: nat, p: T -> bool)
    requires lo <= hi <= |s|
    requires forall i :: lo <= i < hi ==> p(s[i])
    ensures Filter(s[lo..hi], p) == s[lo..hi]
  {
    var t := s[lo..hi];
    forall i | 0 <= i < |t| ensures p(t[i]) {
      assert t[i] == s[lo + i];
    }
    FilterAll(t, p);
  }

  /** Two predicates that agree on every element of `s` filter it alike. */
  lemma {:induction false} FilterCongruent<T>(s: seq<T>, p: T -> bool, q: T -> bool)
    requires forall i :: 0 <= i < |s| ==> p(s[i]) == q(s[i])
    ensures Filter(s, p) == Filter(s, q)
  {
    if s != [] {
      FilterCongruent(s[1..], p, q);
    }
  }

  /** One conditional step of a filter chain: the filter applies only when
      `activo` (a parameter is present, a search box is not empty). */
  function FiltrarSi<T>(s: seq<T>, activo: bool, p: T -> bool): seq<T>
  {
    if activo then Filter(s, p) else s
  }

  /** A conditional step whose filter takes a value that may be missing. */
  function FiltrarOpt<T, V>(s: seq<T>, v: Option<V>, p: V -> (T -> bool)): seq<T>
  {
    if v.Some? then Filter(s, p(v.value)) else s
  }

  /** A conditional step is a single filter by "inactive, or `p` holds". */
  lemma FiltrarSiEs<T>(s: seq<T>, activo: bool, p: T -> bool, c: T -> bool)
    requires forall x :: c(x) == (activo ==> p(x))
    ensures FiltrarSi(s, activo, p) == Filter(s, c)
  {
    if activo {
      FilterCongruent(s, p, c);
    } else {
      FilterAll(s, c);
    }
  }

  /** A step over a possibly missing value is a single filter by "missing,
      or `p` of the value holds". */
  lemma FiltrarOptEs<T, V>(s: seq<T>, v: Option<V>, p: V -> (T -> bool), c: T -> bool)
    requires forall x :: c(x) == (v.Some? ==> p(v.value)(x))
    ensures FiltrarOpt(s, v, p) == Filter(s, c)
  {
    if v.Some? {
      FilterCongruent(s, p(v.value), c);
    } else {
      FilterAll(s, c);
    }
  }

  /** Two filters in a row are one filter by any predicate equivalent to
      their conjunction. */
  lemma FilterCompose<T>(s: seq<T>, p: T -> bool, q: T -> bool, c: T -> bool)
    requires forall x :: c(x) == (p(x) && q(x))
    ensures Filter(Filter(s, p), q) == Filter(s, c)
  {
    FilterFilter(s, p, q);
    FilterCongruent(s, x => p(x) && q(x), c);
  }

  /** A chain known to equal `Filter(qs, c)`, extended by one conditional
      step, equals `Filter(qs, c2)` for `c2` the conjunction. */
  lemma FiltrarSiPaso<T>(qs: seq<T>, s: seq<T>, c: T -> bool, activo: bool, p: T -> bool, c2: T -> bool)
    requires s == Filter(qs, c)
    requires forall x :: c2(x) == (c(x) && (activo ==> p(x)))
    ensures FiltrarSi(s, activo, p) == Filter(qs, c2)
  {
    var d := (x: T) => activo ==> p(x);
    FiltrarSiEs(s, activo, p, d);
    FilterCompose(qs, c, d, c2);
  }

  lemma FiltrarOptPaso<T, V>(qs: seq<T>, s: seq<T>, c: T -> bool, v: Option<V>, p: V -> (T -> bool), c2: T -> bool)
    requires s == Filter(qs, c)
    requires forall x :: c2(x) == (c(x) && (v.Some? ==> p(v.value)(x)))
    ensures FiltrarOpt(s, v, p) == Filter(qs, c2)
  {
    var d := (x: T) => v.Some? ==> p(v.value)(x);
    FiltrarOptEs(s, v, p, d);
    FilterCompose(qs, c, d, c2);
  }

  /** Sum of `f` over the elements of `s` (an `Array.prototype.reduce` or an
      accumulating `for` loop). */
  function SumOf<T>(s: seq<T>, f: T -> int): int
  {
    if s == [] then 0 else SumOf(s[..|s| - 1], f) + f(s[|s| - 1])
  }

  lemma {:induction false} SumOfAppend<T>(a: seq<T>, b: seq<T>, f: T -> int)
    ensures SumOf(a + b, f) == SumOf(a, f) + SumOf(b, f)
    decreases |b|
  {
    if b == [] {
      assert a + b == a;
    } else {
      assert (a + b)[..|a + b| - 1] == a + b[..|b| - 1];
      SumOfAppend(a, b[..|b| - 1], f);
    }
  }

  lemma SumOfSingle<T>(x: T, f: T -> int)
    ensures SumOf([x], f) == f(x)
  {
    assert [x][..0] == [];
  }

  /** Replacing one element changes the sum by the difference of the two. */
  lemma {:induction false} SumOfUpdate<T>(s: seq<T>, i: nat, x: T, f: T -> int)
    requires i < |s|
    ensures SumOf(s[i := x], f) == SumOf(s, f) - f(s[i]) + f(x)
  {
    assert s == s[..i] + [s[i]] + s[i + 1..];
    assert s[i := x] == s[..i] + [x] + s[i + 1..];
    SumOfAppend(s[..i] + [s[i]], s[i + 1..], f);
    SumOfAppend(s[..i], [s[i]], f);
    SumOfAppend(s[..i] + [x], s[i + 1..], f);
    SumOfAppend(s[..i], [x], f);
    SumOfSingle(s[i], f);
    SumOfSingle(x, f);
  }

  /** Removing the element at `i` takes its term out of the sum. */
  lemma {:induction false} SumOfRemove<T>(s: seq<T>, i: nat, f: T -> int)
    requires i < |s|
    ensures SumOf(s[..i] + s[i + 1..], f) == SumOf(s, f) - f(s[i])
  {
    assert s == s[..i] + [s[i]] + s[i + 1..];
    SumOfAppend(s[..i] + [s[i]], s[i + 1..], f);
    SumOfAppend(s[..i], [s[i]], f);
    SumOfAppend(s[..i], s[i + 1..], f);
    SumOfSingle(s[i], f);
  }

  /** Sums that agree term by term are equal. */
  lemma {:induction false} SumOfCongruent<T, U>(s: seq<T>, f: T -> int, t: seq<U>, g: U -> int)
    requires |s| == |t|
    requires forall i :: 0 <= i < |s| ==> f(s[i]) == g(t[i])
    ensures SumOf(s, f) == SumOf(t, g)
  {
    if s != [] {
      SumOfCongruent(s[..|s| - 1], f, t[..|t| - 1], g);
    }
  }

  /** A sum of non-negative terms is non-negative. */
  lemma {:induction false} SumOfNonNegative<T>(s: seq<T>, f: T -> int)
    requires forall i :: 0 <= i < |s| ==> f(s[i]) >= 0
    ensures SumOf(s, f) >= 0
  {
    if s != [] {
      SumOfNonNegative(s[..|s| - 1], f);
    }
  }

  /** JavaScript's `s.slice(start, end)` for non-negative bounds: both bounds
      are clamped to the length, and an empty range gives `[]`. */
  function Slice<T>(s: seq<T>, start: nat, end: nat): (r: seq<T>)
    ensures |r| <= |s|
    ensures start <= end ==> |r| == (if end <= |s| then end else |s|) - (if start <= |s| then start else |s|)
    ensures forall i :: 0 <= i < |r| ==> start + i < |s| && r[i] == s[start + i]
  {
    var e := if end <= |s| then end else |s|;
    if start >= e then [] else s[start..e]
  }
}
