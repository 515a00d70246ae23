/** The page window of the property listing (index.js, GET /properties):
    the defaults applied to the parsed `page` and `limit` query parameters,
    the number of documents skipped, and the page count reported back. */
module Pagination {
  import opened Wrappers

  const DefaultPage: int := 1
  const DefaultLimit: int := 8

  /** `parsed || fallback` for the number parseInt produced. None stands for
      NaN (an absent or non-numeric parameter); Some(0) stands for 0 and -0.
      NaN and zero are falsy and give the fallback; every other integer,
      negative ones included, is kept as it is. */
  function ParsedOr(parsed: Option<int>, fallback: int): (r: int)
    ensures r == fallback || parsed == Some(r)
    ensures parsed == None || parsed == Some(0) ==> r == fallback
    ensures parsed.Some? && parsed.value != 0 ==> r == parsed.value
    ensures fallback != 0 ==> r != 0
  {
    match parsed
    case None => fallback
    case Some(n) => if n == 0 then fallback else n
  }

  /** The page number the handler works with and echoes back. */
  function Page(parsed: Option<int>): (page: int)
    ensures page != 0
    ensures page == DefaultPage <==> parsed == None || parsed == Some(0) || parsed == Some(DefaultPage)
    ensures parsed.Some? && parsed.value != 0 ==> page == parsed.value
  {
    ParsedOr(parsed, DefaultPage)
  }

  /** The page size the handler works with. */
  function Limit(parsed: Option<int>): (limit: int)
    ensures limit != 0
    ensures limit == DefaultLimit <==> parsed == None || parsed == Some(0) || parsed == Some(DefaultLimit)
    ensures parsed.Some? && parsed.value != 0 ==> limit == parsed.value
  {
    ParsedOr(parsed, DefaultLimit)
  }

  /** The number of documents that come before the requested page. */
  function Skip(page: int, limit: int): (skip: int)
    ensures page == 1 ==> skip == 0
    ensures page >= 1 && limit >= 0 ==> skip >= 0
  {
    (page - 1) * limit
  }

  /** Math.ceil(total / limit) for a document count and a non-zero page
      size: the least integer whose product with the page size reaches the
      count (for a negative page size the inequalities turn round). */
  function TotalPages(total: nat, limit: int): (pages: int)
    requires limit != 0
    ensures limit > 0 ==> (pages - 1) * limit < total <= pages * limit
    ensures limit < 0 ==> pages * limit <= total < (pages - 1) * limit
    ensures limit > 0 ==> pages >= 0
    ensures total == 0 ==> pages == 0
  {
    if limit > 0 then (total + limit - 1) / limit else -(total / -limit)
  }

  /** Product is monotone in its left factor for a positive right factor. */
  lemma MulMonotone(a: int, b: int, c: int)
    requires a <= b && c > 0
    ensures a * c <= b * c
  {
    assert b * c - a * c == (b - a) * c;
  }

  /** Consecutive pages are adjacent: page k + 1 starts where page k ends. */
  lemma ConsecutivePagesAdjacent(page: int, limit: int)
    ensures Skip(page + 1, limit) == Skip(page, limit) + limit
  {
  }

  /** For a positive page size, the requested page starts inside the
      collection exactly when its number is at most the page count. */
  lemma PageStartsInside(total: nat, page: int, limit: int)
    requires page >= 1 && limit >= 1
    ensures Skip(page, limit) < total <==> page <= TotalPages(total, limit)
  {
    var pages := TotalPages(total, limit);
    if page <= pages {
      MulMonotone(page - 1, pages - 1, limit);
    } else {
      MulMonotone(pages, page - 1, limit);
    }
  }

  /** The page whose window holds position i of the ordered result, for a
      positive page size. */
  function PageOf(i: nat, limit: int): (page: int)
    requires limit >= 1
    ensures page >= 1
    ensures Skip(page, limit) <= i < Skip(page, limit) + limit
    decreases i
  {
    if i < limit then 1 else PageOf(i - limit, limit) + 1
  }

  /** No position lies in the windows of two different pages. */
  lemma PageUnique(i: nat, limit: int, p: int, q: int)
    requires limit >= 1
    requires Skip(p, limit) <= i < Skip(p, limit) + limit
    requires Skip(q, limit) <= i < Skip(q, limit) + limit
    ensures p == q
  {
    if p < q {
      MulMonotone(p, q - 1, limit);
    } else if q < p {
      MulMonotone(q, p - 1, limit);
    }
  }
}
