/**
 * The pagination arithmetic shared by every listing: the `parseInt(x) || d`
 * defaults of the handlers, `offset = (page - 1) * limit`,
 * `.skip(offset).limit(limit)` and `totalPages = Math.ceil(total / limit)`.
 */
module Paging {
  import opened Wrappers
  import Text
  import Sorting

  /** `parseInt(x) || fallback`: a NaN (`None`) or a 0 falls back. */
  function OrDefault(parsed: Option<int>, fallback: int): (r: int)
    ensures parsed.Some? && parsed.value != 0 ==> r == parsed.value
    ensures parsed.None? || parsed.value == 0 ==> r == fallback
    ensures fallback != 0 ==> r != 0
  {
    if parsed.Some? && parsed.value != 0 then parsed.value else fallback
  }

  /** `Math.ceil(total / limit)` for a non-zero `limit` of either sign. */
  function CeilDiv(total: nat, limit: int): (r: int)
    requires limit != 0
    ensures limit > 0 ==> 0 <= r && (r - 1) * limit < total <= r * limit
    ensures limit < 0 ==> r <= 0 && r * limit <= total < (r - 1) * limit
  {
    if limit > 0 then
      var q := (total + limit - 1) / limit;
      assert q * limit + (total + limit - 1) % limit == total + limit - 1;
      assert (q - 1) * limit == q * limit - limit;
      q
    else
      var q := total / -limit;
      assert q * -limit + total % -limit == total;
      assert (-q - 1) * limit == q * -limit - limit;
      -q
  }

  /** `(page - 1) * limit`, the number of matches skipped. */
  function Offset(page: int, limit: int): int {
    (page - 1) * limit
  }

  function Abs(x: int): nat {
    if x < 0 then -x else x
  }

  function Min(a: int, b: int): int {
    if a <= b then a else b
  }

  /** `.skip(offset).limit(size)` over a result that is already in order. */
  function Window<T>(items: seq<T>, offset: nat, size: nat): (r: seq<T>)
    ensures |r| <= size
    ensures |r| == if offset >= |items| then 0 else Min(size, |items| - offset)
    ensures forall i :: 0 <= i < |r| ==> r[i] == items[offset + i]
  {
    if offset >= |items| then [] else Text.Take(items[offset..], size)
  }

  /** A window of an ordered result holds only its items, still in order. */
  lemma WindowOfSorted<T(!new)>(items: seq<T>, offset: nat, size: nat, le: (T, T) -> bool)
    requires Sorting.SortedBy(items, le)
    ensures forall x :: x in Window(items, offset, size) ==> x in items
    ensures Sorting.SortedBy(Window(items, offset, size), le)
  {
    var w := Window(items, offset, size);
    forall x | x in w ensures x in items {
      var i :| 0 <= i < |w| && w[i] == x;
      assert w[i] == items[offset + i];
    }
    forall i | 0 < i < |w| ensures le(w[i - 1], w[i]) {
      assert w[i - 1] == items[offset + i - 1] && w[i] == items[offset + i];
    }
  }

  datatype Page<T> = Page(data: seq<T>, page: int, limit: int, total: nat, totalPages: int)

  /**
   * One page of an ordered result. MongoDB refuses a negative skip, and a
   * negative limit returns at most its absolute value of documents. Every
   * caller substitutes 20 for a limit of 0, so 0 is excluded.
   */
  function Paginate<T>(items: seq<T>, page: int, limit: int): (r: Result<Page<T>>)
    requires limit != 0
    ensures r.Ok? <==> Offset(page, limit) >= 0
    ensures r.Ok? ==> r.value.page == page && r.value.limit == limit && r.value.total == |items|
    ensures r.Ok? ==> r.value.totalPages == CeilDiv(|items|, limit)
    ensures r.Ok? ==> r.value.data == Window(items, Offset(page, limit), Abs(limit))
  {
    var offset := Offset(page, limit);
    if offset < 0 then Err("skip value must be non-negative")
    else Ok(Page(Window(items, offset, Abs(limit)), page, limit, |items|, CeilDiv(|items|, limit)))
  }

  /**
   * With a positive limit, a page holds at most `limit` items, every page from
   * 1 to `totalPages` is non-empty, and every page after it is empty.
   */
  lemma PageBounds<T>(items: seq<T>, page: int, limit: int)
    requires limit > 0 && page >= 1
    ensures Paginate(items, page, limit).Ok?
    ensures var p := Paginate(items, page, limit).value;
      && |p.data| <= limit
      && (page <= p.totalPages ==> |p.data| > 0)
      && (page > p.totalPages ==> p.data == [])
      && (page < p.totalPages ==> |p.data| == limit)
  {
    var n := CeilDiv(|items|, limit);
    var offset := Offset(page, limit);
    MulLe(0, page - 1, limit);
    if page <= n {
      MulLe(page - 1, n - 1, limit);
    } else {
      MulLe(n, page - 1, limit);
    }
    if page < n {
      MulLe(page, n - 1, limit);
      assert offset + limit == page * limit;
    }
  }

  lemma MulLe(a: int, b: int, c: nat)
    requires a <= b
    ensures a * c <= b * c
  {
    assert b * c - a * c == (b - a) * c;
  }

  /** The concatenation of pages 1 to `n` of a positive limit. */
  function FirstPages<T>(items: seq<T>, limit: nat, n: nat): seq<T>
    requires limit > 0
  {
    if n == 0 then [] else FirstPages(items, limit, n - 1) + Window(items, (n - 1) * limit, limit)
  }

  lemma {:induction false} FirstPagesPrefix<T>(items: seq<T>, limit: nat, n: nat)
    requires limit > 0
    ensures FirstPages(items, limit, n) == items[..Min(n * limit, |items|)]
  {
    if n > 0 {
      FirstPagesPrefix(items, limit, n - 1);
      var lo := (n - 1) * limit;
      var hi := n * limit;
      assert lo + limit == hi;
      var w := Window(items, lo, limit);
      if lo < |items| {
        assert w == items[lo..Min(hi, |items|)];
        assert items[..lo] + items[lo..Min(hi, |items|)] == items[..Min(hi, |items|)];
      } else {
        assert w == [];
      }
    }
  }

  /** Reading pages 1 to `totalPages` in turn yields every match once, in order. */
  lemma PagesCoverResult<T>(items: seq<T>, limit: nat)
    requires limit > 0
    ensures FirstPages(items, limit, CeilDiv(|items|, limit)) == items
  {
    FirstPagesPrefix(items, limit, CeilDiv(|items|, limit));
  }

  /** 25 matches with a limit of 20: page 1 holds 20, page 2 holds 5, 2 pages in all. */
  lemma TwentyFiveMatchesScenario<T>(items: seq<T>)
    requires |items| == 25
    ensures Paginate(items, 1, 20).Ok? && Paginate(items, 2, 20).Ok?
    ensures |Paginate(items, 1, 20).value.data| == 20
    ensures |Paginate(items, 2, 20).value.data| == 5
    ensures Paginate(items, 1, 20).value.totalPages == 2
  {
    assert CeilDiv(25, 20) == 2;
  }
}
