/**
 * Offset pagination of the page query: `findAll({ limit: QueryLimit, offset })`
 * over a fixed snapshot order, with the offset growing by `QueryLimit` after
 * every page and the scan ending only at an empty page.
 */
module Pagination {

  /** `QUERY_LIMIT`: rows per page. */
  const QueryLimit: nat := 100

  /** The rows `limit`/`offset` selects: at most `QueryLimit` rows starting at `offset`. */
  function Page<T>(s: seq<T>, offset: nat): (p: seq<T>)
    ensures |p| <= QueryLimit
    ensures p == [] <==> offset >= |s|
    ensures offset + QueryLimit <= |s| ==> |p| == QueryLimit
    ensures offset < |s| < offset + QueryLimit ==> |p| == |s| - offset
  {
    if offset >= |s| then []
    else s[offset .. if offset + QueryLimit <= |s| then offset + QueryLimit else |s|]
  }

  /** The k-th row of the page at `offset` is row `offset + k` of the snapshot. */
  lemma PageRows<T>(s: seq<T>, offset: nat)
    ensures forall k :: 0 <= k < |Page(s, offset)| ==> offset + k < |s| && Page(s, offset)[k] == s[offset + k]
  {
    var p := Page(s, offset);
    forall k | 0 <= k < |p| ensures offset + k < |s| && p[k] == s[offset + k] {
      var hi := if offset + QueryLimit <= |s| then offset + QueryLimit else |s|;
      assert p == s[offset..hi];
    }
  }

  /** The pages the scan fetches from `offset` on: every page up to and including the first empty one. */
  function PagesFrom<T>(s: seq<T>, offset: nat): seq<seq<T>>
    decreases |s| - offset
  {
    var p := Page(s, offset);
    if p == [] then [p] else [p] + PagesFrom(s, offset + QueryLimit)
  }

  function Flatten<T>(pages: seq<seq<T>>): seq<T> {
    if pages == [] then [] else pages[0] + Flatten(pages[1..])
  }

  /** Rows not yet fetched at `offset`. */
  function Remaining(n: nat, offset: nat): nat {
    if offset < n then n - offset else 0
  }

  /** Concatenating the pages fetched from `offset` on gives back the snapshot from `offset` on. */
  lemma {:induction false} PagesFromFlatten<T>(s: seq<T>, offset: nat)
    ensures Flatten(PagesFrom(s, offset)) == (if offset <= |s| then s[offset..] else [])
    decreases |s| - offset
  {
    var p := Page(s, offset);
    if p != [] {
      PagesFromFlatten(s, offset + QueryLimit);
      var rest := PagesFrom(s, offset + QueryLimit);
      assert ([p] + rest)[1..] == rest;
      if offset + QueryLimit <= |s| {
        assert s[offset..] == p + s[offset + QueryLimit..];
      } else {
        assert p == s[offset..];
      }
    }
  }

  /** From `offset` on the scan fetches ceil(remaining / QueryLimit) non-empty pages, then one empty page. */
  lemma {:induction false} PagesFromCount<T>(s: seq<T>, offset: nat)
    ensures var pages := PagesFrom(s, offset);
      && |pages| == (Remaining(|s|, offset) + QueryLimit - 1) / QueryLimit + 1
      && pages[|pages| - 1] == []
      && forall i :: 0 <= i < |pages| - 1 ==> pages[i] != []
    decreases |s| - offset
  {
    var p := Page(s, offset);
    if p != [] {
      PagesFromCount(s, offset + QueryLimit);
      var rest := PagesFrom(s, offset + QueryLimit);
      var pages := [p] + rest;
      assert forall i :: 1 <= i < |pages| ==> pages[i] == rest[i - 1];
      var r := Remaining(|s|, offset);
      if offset + QueryLimit <= |s| {
        assert Remaining(|s|, offset + QueryLimit) == r - QueryLimit;
        assert (r + QueryLimit - 1) / QueryLimit == (r - QueryLimit + QueryLimit - 1) / QueryLimit + 1;
      } else {
        assert Remaining(|s|, offset + QueryLimit) == 0;
        assert 1 <= r < QueryLimit;
      }
    }
  }

  /**
   * Over a fixed snapshot of N rows, the offset loop visits every row exactly
   * once and in order, and issues ceil(N / QueryLimit) + 1 fetches: it does not
   * stop on a short page, so the last fetch is always an empty page (N = 0 gives
   * one fetch).
   */
  lemma PaginationCoverage<T>(s: seq<T>)
    ensures var pages := PagesFrom(s, 0);
      && Flatten(pages) == s
      && |pages| == (|s| + QueryLimit - 1) / QueryLimit + 1
      && pages[|pages| - 1] == []
      && forall i :: 0 <= i < |pages| - 1 ==> pages[i] != []
  {
    PagesFromFlatten(s, 0);
    PagesFromCount(s, 0);
  }

  /** The rows of every page before `offset`. */
  function Before<T>(s: seq<T>, offset: nat): (r: seq<T>)
    ensures |r| <= |s|
    ensures offset >= |s| ==> r == s
  {
    if offset <= |s| then s[..offset] else s
  }

  /** Fetching the page at `offset` extends the rows seen so far by exactly that page. */
  lemma BeforeNextPage<T>(s: seq<T>, offset: nat)
    ensures Before(s, offset + QueryLimit) == Before(s, offset) + Page(s, offset)
  {
    if offset + QueryLimit <= |s| {
      assert s[..offset + QueryLimit] == s[..offset] + s[offset..offset + QueryLimit];
    } else if offset <= |s| {
      assert s == s[..offset] + s[offset..];
    }
  }

  /** Moving to the next page keeps the offset a multiple of `QueryLimit` and counts one more page. */
  lemma NextOffset(offset: nat)
    requires offset % QueryLimit == 0
    ensures (offset + QueryLimit) % QueryLimit == 0
    ensures (offset + QueryLimit) / QueryLimit == offset / QueryLimit + 1
  {
  }

  /** The first multiple of `QueryLimit` at or past `n` is reached after ceil(n / QueryLimit) steps. */
  lemma FirstOffsetPastEnd(n: nat, offset: nat)
    requires offset % QueryLimit == 0 && offset >= n
    requires offset == 0 || offset - QueryLimit < n
    ensures offset / QueryLimit == (n + QueryLimit - 1) / QueryLimit
  {
  }
}
