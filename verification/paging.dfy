/** Page arithmetic shared by the list pages: `Math.ceil(n / size)`, the
    page slice `[(page - 1) * size, page * size)`, and the clamped
    "previous"/"next" handlers. */
module Paging {
  import opened Seqs

  /** `Math.ceil(n / d)` for a positive divisor. */
  function CeilDiv(n: nat, d: nat): (r: nat)
    requires d > 0
    ensures r * d >= n
    ensures r == 0 || (r - 1) * d < n
    ensures r == 0 <==> n == 0
  {
    (n + d - 1) / d
  }

  /** The items shown on `page` (1-based): `list.slice((page - 1) * size, page * size)`. */
  function PageSlice<T>(s: seq<T>, page: nat, size: nat): (r: seq<T>)
    requires page >= 1
    ensures |r| <= size
    ensures forall i :: 0 <= i < |r| ==> (page - 1) * size + i < |s| && r[i] == s[(page - 1) * size + i]
    ensures (page - 1) * size + size <= |s| ==> |r| == size
    ensures (page - 1) * size <= |s| <= (page - 1) * size + size ==> |r| == |s| - (page - 1) * size
  {
    Slice(s, (page - 1) * size, (page - 1) * size + size)
  }

  /** Every item of the list is on exactly the page its index says, and that
      page is within `CeilDiv(|s|, size)`. */
  lemma ItemOnItsPage<T>(s: seq<T>, size: nat, k: nat)
    requires size > 0 && k < |s|
    ensures 1 <= k / size + 1 <= CeilDiv(|s|, size)
    ensures k % size < |PageSlice(s, k / size + 1, size)|
    ensures PageSlice(s, k / size + 1, size)[k % size] == s[k]
  {
    var q, m := k / size, k % size;
    assert k == q * size + m && m < size;
    var start := (q + 1 - 1) * size;
    assert start == q * size;
    var r := PageSlice(s, q + 1, size);
    assert start + m < |s|;
    assert start + m < start + size;
    assert m < |r|;
    MulDivLowerBound(q + 1, |s| + size - 1, size);
  }

  /** `a * d <= b` implies `a <= b / d`. */
  lemma MulDivLowerBound(a: nat, b: nat, d: nat)
    requires d > 0 && a * d <= b
    ensures a <= b / d
  {
    var q, m := b / d, b % d;
    assert b == q * d + m && m < d;
    assert (q + 1) * d == q * d + d;
    MulMonoIff(a, q, d);
    MulMonoIff(q + 1, a, d);
  }

  /** For a positive factor, multiplication preserves and reflects `<=`. */
  lemma MulMonoIff(x: nat, y: nat, d: nat)
    requires d > 0
    ensures x <= y <==> x * d <= y * d
  {
    if x <= y {
      MulMono(x, y, d);
    } else {
      MulMono(y + 1, x, d);
      assert (y + 1) * d == y * d + d;
    }
  }

  lemma MulMono(x: nat, y: nat, d: nat)
    requires x <= y
    ensures x * d <= y * d
  {
  }

  /** "Previous": `Math.max(1, page - 1)`. */
  function Prev(page: int): int
  {
    if page - 1 >= 1 then page - 1 else 1
  }

  /** "Next" clamped to the page count: `Math.min(totalPages, page + 1)`. */
  function NextClamped(page: int, totalPages: int): int
  {
    if page + 1 <= totalPages then page + 1 else totalPages
  }

  /** The invoice list's page count: `Math.max(1, Math.ceil(n / size))`. */
  function TotalPages(n: nat, size: nat): (t: nat)
    requires size > 0
  {
    var c := CeilDiv(n, size);
    if c >= 1 then c else 1
  }

  /** From a page inside `[1, totalPages]`, both handlers stay inside it and
      move by at most one. */
  lemma ControlsStayInRange(page: int, n: nat, size: nat)
    requires size > 0
    requires 1 <= page <= TotalPages(n, size)
    ensures 1 <= Prev(page) <= TotalPages(n, size) && page - 1 <= Prev(page) <= page
    ensures 1 <= NextClamped(page, TotalPages(n, size)) <= TotalPages(n, size)
    ensures page <= NextClamped(page, TotalPages(n, size)) <= page + 1
    ensures TotalPages(n, size) >= 1 && (n > 0 ==> (TotalPages(n, size) - 1) * size < n)
  {
  }

  /** The two "next disabled" rules in use agree on every page from 1 on:
      `page * size >= n` exactly when `page >= Math.ceil(n / size)`. */
  lemma DisabledRulesAgree(page: nat, n: nat, size: nat)
    requires size > 0 && page >= 1
    ensures page * size >= n <==> page >= CeilDiv(n, size)
  {
    var r := CeilDiv(n, size);
    if page >= r {
      MulMono(r, page, size);
    } else {
      MulMono(page, r - 1, size);
    }
  }

  /** When "next" is enabled the next page is not empty, and every item on
      it is an item of the list. */
  lemma NextPageNonEmpty<T>(s: seq<T>, page: nat, size: nat)
    requires size > 0 && page >= 1
    requires page * size < |s|
    ensures |PageSlice(s, page + 1, size)| >= 1
    ensures PageSlice(s, page + 1, size)[0] == s[page * size]
  {
    assert (page + 1 - 1) * size == page * size;
  }

  /** After a filter change the page is 1, which shows the first `size`
      items of the list (all of them when there are fewer). */
  lemma FirstPage<T>(s: seq<T>, size: nat)
    ensures PageSlice(s, 1, size) == if size <= |s| then s[..size] else s
  {
    assert (1 - 1) * size == 0;
  }
}
