/**
 * The pagination arithmetic shared by the list pages: `Math.ceil(n / size)`, `Array.prototype.slice`
 * with JavaScript's handling of negative and out-of-range bounds, and the Prev/Next clamps.
 */
module Paging {

  /** `Math.ceil(n / k)` for an integer `n` and a positive divisor (`-0` is written 0). */
  function CeilDiv(n: int, k: nat): (r: int)
    requires k > 0
    ensures (r - 1) * k < n <= r * k
  {
    -((-n) / k)
  }

  /** How `slice` normalises one bound of a list of length `len`. */
  function SliceBound(x: int, len: nat): (b: nat)
    ensures b <= len
  {
    if x < 0 then (if len + x < 0 then 0 else len + x) else if x > len then len else x
  }

  /** `s.slice(start, end)`. */
  function JsSlice<T>(s: seq<T>, start: int, end: int): seq<T> {
    var a := SliceBound(start, |s|);
    var b := SliceBound(end, |s|);
    if a < b then s[a..b] else []
  }

  /** `s.slice((page - 1) * size, page * size)`, the records shown on one page. */
  function PageSlice<T>(s: seq<T>, page: int, size: nat): seq<T> {
    JsSlice(s, (page - 1) * size, page * size)
  }

  /** A page never shows more than `size` records, whatever the page number. */
  lemma PageSliceBounded<T>(s: seq<T>, page: int, size: nat)
    ensures |PageSlice(s, page, size)| <= size
  {
    var start, end := (page - 1) * size, page * size;
    assert end == start + size;
  }

  /** Record `i` is shown on page `i / size + 1`, at row `i % size`. */
  lemma PageOfRecord<T>(s: seq<T>, i: nat, size: nat)
    requires i < |s| && size > 0
    ensures var page := i / size + 1;
            i % size < |PageSlice(s, page, size)| && PageSlice(s, page, size)[i % size] == s[i]
  {
    var q, r := i / size, i % size;
    PageBounds(q, size);
    assert q * size + r == i;
    JsSliceAt(s, q * size, q * size + size, r);
  }

  /** Page `q + 1` starts at `q * size` and ends `size` records later. */
  lemma PageBounds(q: int, size: nat)
    ensures (q + 1 - 1) * size == q * size && (q + 1) * size == q * size + size
  {
  }

  /** Inside both bounds and the list, `slice` keeps the element at its offset. */
  lemma JsSliceAt<T>(s: seq<T>, a: nat, b: nat, k: nat)
    requires a + k < b && a + k < |s|
    ensures k < |JsSlice(s, a, b)| && JsSlice(s, a, b)[k] == s[a + k]
  {
  }

  /** `Math.ceil(n / size) || 1`: the page count, with an empty list still showing one page. */
  function PageCountOr1(n: nat, size: nat): (r: int)
    requires size > 0
    ensures r >= 1
    ensures r == if n == 0 then 1 else CeilDiv(n, size)
  {
    var c := CeilDiv(n, size);
    if c == 0 then 1 else c
  }

  /** `Math.max(1, Math.ceil(n / size))`: the same count written the other way. */
  function PageCountMax1(n: nat, size: nat): (r: int)
    requires size > 0
    ensures r >= 1
    ensures r == PageCountOr1(n, size)
  {
    var c := CeilDiv(n, size);
    if 1 < c then c else 1
  }

  /** Every record of a non-empty list lies on a page between 1 and the page count. */
  lemma RecordPageInRange(n: nat, size: nat, i: nat)
    requires size > 0 && i < n
    ensures 1 <= i / size + 1 <= PageCountOr1(n, size)
  {
    var c := CeilDiv(n, size);
    assert (i / size) * size <= i < n <= c * size;
  }

  /** The "Previous" button: `Math.max(1, p - 1)`. */
  function PrevPage(p: int): (r: int)
    ensures r >= 1
    ensures p > 1 ==> r == p - 1
  {
    if p - 1 < 1 then 1 else p - 1
  }

  /** The "Next" button: `Math.min(total, p + 1)`. */
  function NextPage(p: int, total: int): (r: int)
    ensures r <= total
    ensures p < total ==> r == p + 1
  {
    if total < p + 1 then total else p + 1
  }
}
