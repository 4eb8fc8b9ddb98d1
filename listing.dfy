/**
  The pagination of the product listing (`GET /api/products`, server.js:38-81): the offset of
  a page, the number of pages, and the rows `LIMIT ... OFFSET ...` returns from the matching
  products in id order.
 */
module Listing {
  import opened Wrappers

  /** The query's defaults when `page` or `limit` is not given. */
  const DefaultPage := 1
  const DefaultLimit := 12

  /** `(page - 1) * limit`. */
  function Offset(page: int, limit: int): int {
    (page - 1) * limit
  }

  /** `Math.ceil(totalProducts / limit)`: the fewest pages of `limit` rows that hold every
      matching product. */
  function TotalPages(total: nat, limit: int): (r: nat)
    requires limit > 0
    ensures r * limit >= total
    ensures r == 0 || (r - 1) * limit < total
  {
    (total + limit - 1) / limit
  }

  /** `... ORDER BY p.id ASC LIMIT limit OFFSET offset` over `rows`, the matching products
      already in id order. The database refuses a negative LIMIT or OFFSET, which the handler
      answers with a server error. */
  function PageRows<T>(rows: seq<T>, page: int, limit: int): (r: Option<seq<T>>)
    ensures r.None? <==> limit < 0 || Offset(page, limit) < 0
    ensures r.Some? && Offset(page, limit) >= |rows| ==> r.value == []
    ensures r.Some? && Offset(page, limit) < |rows| ==>
              |r.value| == (if |rows| - Offset(page, limit) < limit then |rows| - Offset(page, limit) else limit)
    ensures r.Some? ==> forall j :: 0 <= j < |r.value| ==> r.value[j] == rows[Offset(page, limit) + j]
  {
    var offset := Offset(page, limit);
    if limit < 0 || offset < 0 then None
    else if offset >= |rows| then Some([])
    else if |rows| - offset < limit then Some(rows[offset..])
    else Some(rows[offset..offset + limit])
  }

  /** A request without `page` and `limit` gets the first twelve matching products, and
      `totalPages` counts pages of twelve. */
  lemma DefaultListing<T>(rows: seq<T>)
    ensures PageRows(rows, DefaultPage, DefaultLimit) == Some(if |rows| < 12 then rows else rows[..12])
    ensures TotalPages(|rows|, DefaultLimit) == (|rows| + 11) / 12
  {
    var r := PageRows(rows, DefaultPage, DefaultLimit);
    assert Offset(DefaultPage, DefaultLimit) == 0;
    if |rows| >= 12 {
      assert r.value == rows[..12];
    } else {
      assert r.value == rows;
    }
  }

  /** With a positive limit, the pages that hold rows are exactly pages 1 to `totalPages`. */
  lemma PagesInRange<T>(rows: seq<T>, page: int, limit: int)
    requires limit > 0 && page >= 1
    ensures PageRows(rows, page, limit).Some?
    ensures PageRows(rows, page, limit).value != [] <==> page <= TotalPages(|rows|, limit)
  {
    var n := TotalPages(|rows|, limit);
    var offset := Offset(page, limit);
    if page <= n {
      assert offset <= (n - 1) * limit by {
        assert page - 1 <= n - 1;
        MultiplyMonotone(page - 1, n - 1, limit);
      }
    } else {
      assert offset >= n * limit by {
        assert page - 1 >= n;
        MultiplyMonotone(n, page - 1, limit);
      }
    }
  }

  lemma MultiplyMonotone(a: int, b: int, c: int)
    requires a <= b && c >= 0
    ensures a * c <= b * c
  {
  }

  /** Every matching product is on exactly one page: row `k` is entry `k % limit` of page
      `k / limit + 1`, that page is in range, and no other page's offsets reach it. */
  lemma RowOnPage<T>(rows: seq<T>, limit: int, k: nat)
    requires limit > 0 && k < |rows|
    ensures var page := k / limit + 1;
      && 1 <= page <= TotalPages(|rows|, limit)
      && PageRows(rows, page, limit).Some?
      && k % limit < |PageRows(rows, page, limit).value|
      && PageRows(rows, page, limit).value[k % limit] == rows[k]
    ensures forall page :: Offset(page, limit) <= k < Offset(page, limit) + limit ==> page == k / limit + 1
  {
    var page := k / limit + 1;
    assert Offset(page, limit) + k % limit == k;
    PagesInRange(rows, page, limit);
    forall page' | Offset(page', limit) <= k < Offset(page', limit) + limit
      ensures page' == k / limit + 1
    {
      DivisionBounds(k, limit, page' - 1);
    }
  }

  /** The quotient is the only multiple of the divisor whose interval holds the dividend. */
  lemma DivisionBounds(k: int, limit: int, q: int)
    requires limit > 0 && q * limit <= k < q * limit + limit
    ensures q == k / limit
  {
    var d := k / limit;
    assert d * limit <= k < d * limit + limit;
    if q < d {
      MultiplyMonotone(q + 1, d, limit);
    } else if q > d {
      MultiplyMonotone(d + 1, q, limit);
    }
  }
}
