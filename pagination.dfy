/** Page arithmetic of the transaction listing: `page` and `limit` come from
    `parseInt(...) || default`, the row offset is `(page - 1) * limit` and the
    page count is `Math.ceil(total / limit)`. A query parameter that does not
    parse (NaN) is `None`. */
module Pagination {
  import opened Wrappers

  const DefaultPage: int := 1
  const DefaultLimit: int := 10

  /** `parseInt(x) || d`: NaN and 0 are falsy and give the default. */
  function OrDefault(parsed: Option<int>, d: int): (r: int)
    requires d != 0
    ensures r != 0
    ensures parsed.Some? && parsed.value != 0 ==> r == parsed.value
    ensures parsed.None? || parsed == Some(0) ==> r == d
  {
    if parsed.None? || parsed.value == 0 then d else parsed.value
  }

  function Offset(page: int, limit: int): int {
    (page - 1) * limit
  }

  /** `Math.ceil(total / limit)`: the least integer at or above the quotient. */
  function CeilDiv(total: int, limit: int): (r: int)
    requires limit > 0
    ensures (r - 1) * limit < total <= r * limit
  {
    -((-total) / limit)
  }

  /** The `pagination` block of the response: page, limit, offset, totalPages. */
  datatype Page = Page(page: int, limit: int, offset: int, totalPages: int)

  /** A negative LIMIT or OFFSET is refused by the database and the data
      query answers with an error. */
  function Paginate(pageParam: Option<int>, limitParam: Option<int>, total: nat): (r: Option<Page>)
    ensures r.Some? <==> OrDefault(limitParam, DefaultLimit) > 0 && OrDefault(pageParam, DefaultPage) >= 1
    ensures r.Some? ==> r.value.page == OrDefault(pageParam, DefaultPage) && r.value.limit == OrDefault(limitParam, DefaultLimit)
    ensures r.Some? ==> r.value.limit > 0 && r.value.page >= 1 && r.value.offset >= 0
    ensures r.Some? ==> r.value.offset == (r.value.page - 1) * r.value.limit
    ensures r.Some? ==> (r.value.totalPages - 1) * r.value.limit < total <= r.value.totalPages * r.value.limit
  {
    var page := OrDefault(pageParam, DefaultPage);
    var limit := OrDefault(limitParam, DefaultLimit);
    if limit < 0 || page < 1 then None
    else
      assert (page - 1) * limit >= 0 by {
        MulNonNegative(page - 1, limit);
      }
      Some(Page(page, limit, Offset(page, limit), CeilDiv(total, limit)))
  }

  lemma MulNonNegative(a: int, b: int)
    requires a >= 0 && b >= 0
    ensures a * b >= 0
  {
  }

  /** Every row of the listing lies on exactly one page within the page
      count: row `i` (counting from 0) is on page `i / limit + 1`, whose
      window `[offset, offset + limit)` holds it. */
  lemma RowOnItsPage(total: nat, limit: int, i: nat)
    requires limit > 0 && i < total
    ensures var p := i / limit + 1;
      && 1 <= p <= CeilDiv(total, limit)
      && Offset(p, limit) <= i < Offset(p, limit) + limit
  {
  }
}
