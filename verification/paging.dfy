/** Page arithmetic: page counts, `OFFSET`/`LIMIT` slices, and how the pages of
    one ordered result fit together. Page numbers start at 1. */
module Paging {

  /** The number of pages of `size` items needed to hold `n` items: the least
      `r` with `r * size >= n`, so zero items need zero pages. */
  function CeilDiv(n: nat, size: int): (r: nat)
    requires size >= 1
    ensures r * size >= n
    ensures r > 0 ==> (r - 1) * size < n
    ensures r == 0 <==> n == 0
  {
    var q := (n + size - 1) / size;
    assert q * size + (n + size - 1) % size == n + size - 1;
    q
  }

  /** The smaller of `a` and `b`. */
  function Min(a: int, b: int): (r: int)
    ensures r <= a && r <= b && (r == a || r == b)
  {
    if a <= b then a else b
  }

  /** Index of the first item of page `page`. */
  function Offset(page: int, size: int): (r: nat)
    requires page >= 1 && size >= 1
    ensures r == (page - 1) * size
  {
    MulMonotone(0, page - 1, size);
    (page - 1) * size
  }

  /** `s` with the first `off` items skipped and at most `limit` items kept:
      SQL `OFFSET off LIMIT limit` over an ordered result. */
  function Window<T>(s: seq<T>, off: nat, limit: nat): (r: seq<T>)
    ensures |r| == if off < |s| then Min(limit, |s| - off) else 0
    ensures forall i :: 0 <= i < |r| ==> r[i] == s[off + i]
  {
    if off >= |s| then [] else s[off..Min(off + limit, |s|)]
  }

  /** Page `page` of `s` at `size` items per page. */
  function PageSlice<T>(s: seq<T>, page: int, size: int): (r: seq<T>)
    requires page >= 1 && size >= 1
    ensures |r| <= size
    ensures |r| == if Offset(page, size) < |s| then Min(size, |s| - Offset(page, size)) else 0
    ensures forall i :: 0 <= i < |r| ==> Offset(page, size) + i < |s| && r[i] == s[Offset(page, size) + i]
  {
    Window(s, Offset(page, size), size)
  }

  /** Pages 1 through `k`, one after another. */
  function PagesThrough<T>(s: seq<T>, size: int, k: nat): (r: seq<T>)
    requires size >= 1
  {
    if k == 0 then [] else PagesThrough(s, size, k - 1) + PageSlice(s, k, size)
  }

  /** Pages 1..k together are exactly the first `k * size` items (or all of them). */
  lemma {:induction false} PagesThroughIsPrefix<T>(s: seq<T>, size: int, k: nat)
    requires size >= 1
    ensures PagesThrough(s, size, k) == s[..Min(k * size, |s|)]
  {
    if k > 0 {
      PagesThroughIsPrefix(s, size, k - 1);
      PageExtendsPrefix(s, size, k);
    }
  }

  /** Page `k` continues the prefix that pages 1..k-1 end at. */
  lemma PageExtendsPrefix<T>(s: seq<T>, size: int, k: int)
    requires size >= 1 && k >= 1
    ensures s[..Min((k - 1) * size, |s|)] + PageSlice(s, k, size) == s[..Min(k * size, |s|)]
  {
    var off := (k - 1) * size;
    MulMonotone(0, k - 1, size);
    assert k * size == off + size;
    var page := PageSlice(s, k, size);
    if off < |s| {
      assert page == s[off..Min(off + size, |s|)];
      assert s[..off] + s[off..Min(off + size, |s|)] == s[..Min(off + size, |s|)];
    } else {
      assert page == [];
    }
  }

  /** Pages 1..CeilDiv(|s|, size) concatenate to the whole sequence: nothing is
      dropped and nothing is repeated. */
  lemma PagesCoverAll<T>(s: seq<T>, size: int)
    requires size >= 1
    ensures PagesThrough(s, size, CeilDiv(|s|, size)) == s
  {
    PagesThroughIsPrefix(s, size, CeilDiv(|s|, size));
  }

  /** Every item of an earlier page sits before every item of a later page. */
  lemma {:induction false} PageItemsAreDisjoint<T>(s: seq<T>, size: int, p: int, q: int, i: int, j: int)
    requires size >= 1 && 1 <= p < q
    requires 0 <= i < |PageSlice(s, p, size)| && 0 <= j < |PageSlice(s, q, size)|
    ensures Offset(p, size) + i < Offset(q, size) + j
  {
    var gap := q - p;
    assert Offset(q, size) == Offset(p, size) + gap * size by {
      assert (q - 1) * size == (p - 1) * size + gap * size;
    }
    MulMonotone(1, gap, size);
  }

  /** Multiplying by a non-negative factor preserves order. */
  lemma {:induction false} MulMonotone(a: int, b: int, c: nat)
    requires 0 <= a <= b
    ensures a * c <= b * c
    decreases b - a
  {
    if a < b {
      MulMonotone(a, b - 1, c);
      assert b * c == (b - 1) * c + c;
    }
  }

  /** Item `i` of page `page` sits at position `m` of `s`. */
  lemma PageItem<T>(s: seq<T>, page: int, size: int, i: int) returns (m: nat)
    requires page >= 1 && size >= 1
    requires 0 <= i < |PageSlice(s, page, size)|
    ensures m == Offset(page, size) + i && m < |s|
    ensures PageSlice(s, page, size)[i] == s[m]
  {
    m := Offset(page, size) + i;
  }

  /** If `s` has no repeated key, two different pages share no key. */
  lemma PagesShareNoKey<T, K>(s: seq<T>, key: T -> K, size: int, p: int, q: int)
    requires size >= 1 && 1 <= p && 1 <= q && p != q
    requires forall m, n :: 0 <= m < n < |s| ==> key(s[m]) != key(s[n])
    ensures forall i, j :: 0 <= i < |PageSlice(s, p, size)| && 0 <= j < |PageSlice(s, q, size)| ==>
              key(PageSlice(s, p, size)[i]) != key(PageSlice(s, q, size)[j])
  {
    forall i, j | 0 <= i < |PageSlice(s, p, size)| && 0 <= j < |PageSlice(s, q, size)|
      ensures key(PageSlice(s, p, size)[i]) != key(PageSlice(s, q, size)[j])
    {
      var m := PageItem(s, p, size, i);
      var n := PageItem(s, q, size, j);
      if p < q {
        PageItemsAreDisjoint(s, size, p, q, i, j);
        assert key(s[m]) != key(s[n]);
      } else {
        PageItemsAreDisjoint(s, size, q, p, j, i);
        assert key(s[n]) != key(s[m]);
      }
    }
  }

  /** The endpoint's range check: a page beyond the last is rejected, but only
      when there is at least one item. */
  predicate PageInRange(count: nat, page: int, size: int)
    requires size >= 1
  {
    !(page > CeilDiv(count, size) && count > 0)
  }

  /** Every page the range check admits on a non-empty result is non-empty. */
  lemma AdmittedPagesAreNonEmpty<T>(s: seq<T>, page: int, size: int)
    requires page >= 1 && size >= 1 && |s| > 0
    ensures PageInRange(|s|, page, size) <==> |PageSlice(s, page, size)| > 0
  {
    var n := CeilDiv(|s|, size);
    if page <= n {
      MulMonotone(page - 1, n - 1, size);
    } else {
      MulMonotone(n, page - 1, size);
    }
  }

  /** With no items every page number is admitted and every page is empty. */
  lemma EmptyResultAdmitsEveryPage<T>(s: seq<T>, page: int, size: int)
    requires page >= 1 && size >= 1 && |s| == 0
    ensures PageInRange(|s|, page, size)
    ensures PageSlice(s, page, size) == []
  {
  }

  /** 47 items at 20 per page: 3 pages, the third holds 7, page 4 is rejected. */
  lemma FortySevenItemsExample<T>(s: seq<T>)
    requires |s| == 47
    ensures CeilDiv(|s|, 20) == 3
    ensures |PageSlice(s, 3, 20)| == 7
    ensures !PageInRange(|s|, 4, 20)
  {
  }
}
