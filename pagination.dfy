// The "load more" pagination of the list: `R.take(currentPagination)`
// (src/index.js:64) and the `currentPagination < listLength` test that decides
// whether the Load More button is shown (src/index.js:72). Generic over the
// element type: it never looks inside the elements.

module Pagination {

  /** What the list shows: the visible prefix and whether Load More is offered. */
  datatype Page<T> = Page(visible: seq<T>, hasMore: bool)

  function Min(a: nat, b: nat): nat {
    if a < b then a else b
  }

  /** The first `n` elements, or all of them when there are fewer. */
  function Take<T>(s: seq<T>, n: nat): (r: seq<T>)
    ensures |r| == Min(n, |s|)
    ensures r <= s
  {
    if n < |s| then s[..n] else s
  }

  /**
   * One page view of `s` with `revealed` elements requested. The length of the
   * list is an explicit value here rather than captured on the side.
   */
  function Paginate<T>(s: seq<T>, revealed: nat): (p: Page<T>)
    ensures |p.visible| == Min(revealed, |s|) && p.visible <= s
    ensures p.hasMore <==> p.visible != s
  {
    var listLength := |s|;
    Page(Take(s, revealed), revealed < listLength)
  }

  /**
   * Revealing more never reorders or drops what was visible: the smaller view
   * is a prefix of the larger one, and the larger one adds exactly the next
   * elements of `s`.
   */
  lemma PaginateMonotone<T>(s: seq<T>, m: nat, n: nat)
    requires m <= n
    ensures Paginate(s, m).visible <= Paginate(s, n).visible
    ensures Paginate(s, n).visible == Paginate(s, m).visible + s[Min(m, |s|)..Min(n, |s|)]
    ensures Paginate(s, n).hasMore ==> Paginate(s, m).hasMore
  {
    var a, b := Paginate(s, m).visible, Paginate(s, n).visible;
    assert a == s[..Min(m, |s|)];
    assert b == s[..Min(n, |s|)];
    assert s[..Min(n, |s|)] == s[..Min(m, |s|)] + s[Min(m, |s|)..Min(n, |s|)];
  }
}
