/** GET /properties (index.js): the filtered count, the newest-first page
    window and the page count, over an in-memory collection. */
module Listing {
  import opened Wrappers
  import opened Documents
  import opened Pagination
  import opened Filters
  import opened Ordering

  /** The query of one listing request: the parseInt results of `page` and
      `limit` (None for NaN) and the three filter parameters. */
  datatype ListingRequest = ListingRequest(page: Option<int>, limit: Option<int>, filters: FilterParams)

  /** The body of a successful response. */
  datatype ListingResponse = ListingResponse(total: nat, page: int, totalPages: int, properties: seq<Property>)

  /** The documents a filter selects, in collection order (`find(filter)`;
      its length is `countDocuments(filter)`). */
  function Select(docs: seq<Property>, filter: map<string, string>): (r: seq<Property>)
    ensures |r| <= |docs|
    ensures forall p :: p in r <==> p in docs && Matches(p, filter)
    ensures multiset(r) <= multiset(docs)
    ensures forall p :: multiset(r)[p] == if Matches(p, filter) then multiset(docs)[p] else 0
  {
    if docs == [] then []
    else
      assert docs == [docs[0]] + docs[1..];
      (if Matches(docs[0], filter) then [docs[0]] else []) + Select(docs[1..], filter)
  }

  /** `.skip(skip).limit(limit)` on an ordered result, for a positive page
      size (the driver reads a limit of 0 as no limit; the listing never
      passes one). */
  function Window(ordered: seq<Property>, skip: nat, limit: nat): (page: seq<Property>)
    requires limit >= 1
    ensures |page| <= limit
    ensures |page| == if skip >= |ordered| then 0 else if limit <= |ordered| - skip then limit else |ordered| - skip
    ensures forall i :: 0 <= i < |page| ==> page[i] == ordered[skip + i]
  {
    var start := if skip < |ordered| then skip else |ordered|;
    var stop := if limit <= |ordered| - start then start + limit else |ordered|;
    ordered[start..stop]
  }

  /** The response to a listing request whose page and page size, after the
      defaults, are positive. */
  function ListProperties(docs: seq<Property>, req: ListingRequest): (resp: ListingResponse)
    requires Page(req.page) >= 1 && Limit(req.limit) >= 1
    ensures resp.page == Page(req.page)
    ensures resp.total == |Select(docs, FilterSpec(req.filters))|
    ensures resp.totalPages == TotalPages(resp.total, Limit(req.limit))
    ensures resp.properties
            == Window(SortNewestFirst(Select(docs, FilterSpec(req.filters))), Skip(resp.page, Limit(req.limit)), Limit(req.limit))
    ensures |resp.properties| <= Limit(req.limit)
    ensures |resp.properties| > 0 <==> resp.page <= resp.totalPages
    ensures |resp.properties| > 0 ==> Skip(resp.page, Limit(req.limit)) + |resp.properties| <= resp.total
    ensures NewestFirst(resp.properties)
    ensures forall p :: p in resp.properties ==> p in docs && Matches(p, FilterSpec(req.filters))
  {
    var page := Page(req.page);
    var limit := Limit(req.limit);
    var skip := Skip(page, limit);
    var filter := FilterSpec(req.filters);
    var matching := Select(docs, filter);
    var ordered := SortNewestFirst(matching);
    var properties := Window(ordered, skip, limit);
    WindowNewestFirst(ordered, skip, limit);
    WindowOfPage(ordered, page, limit);
    WindowOfMatches(docs, filter, skip, limit);
    ListingResponse(|matching|, page, TotalPages(|matching|, limit), properties)
  }

  /** The window of a page is non-empty exactly up to the page count, and
      then lies inside the ordered result. */
  lemma WindowOfPage(ordered: seq<Property>, page: int, limit: int)
    requires page >= 1 && limit >= 1
    ensures var w := Window(ordered, Skip(page, limit), limit);
            (|w| > 0 <==> page <= TotalPages(|ordered|, limit))
            && (|w| > 0 ==> Skip(page, limit) + |w| <= |ordered|)
  {
    PageStartsInside(|ordered|, page, limit);
  }

  /** Every document of a window of the ordered matches is a matching
      document of the collection. */
  lemma WindowOfMatches(docs: seq<Property>, filter: map<string, string>, skip: nat, limit: nat)
    requires limit >= 1
    ensures forall p :: p in Window(SortNewestFirst(Select(docs, filter)), skip, limit) ==> p in docs && Matches(p, filter)
  {
    var ordered := SortNewestFirst(Select(docs, filter));
    forall p | p in Window(ordered, skip, limit)
      ensures p in docs && Matches(p, filter)
    {
      assert p in multiset(ordered);
    }
  }

  /** A window of a newest-first sequence is newest first. */
  lemma WindowNewestFirst(ordered: seq<Property>, skip: nat, limit: nat)
    requires limit >= 1
    requires NewestFirst(ordered)
    ensures NewestFirst(Window(ordered, skip, limit))
  {
    var start := if skip < |ordered| then skip else |ordered|;
    var stop := if limit <= |ordered| - start then start + limit else |ordered|;
    SliceNewestFirst(ordered, start, stop);
  }

  /** The empty filter selects the whole collection. */
  lemma {:induction false} SelectAll(docs: seq<Property>)
    ensures Select(docs, map[]) == docs
  {
    if docs != [] {
      SelectAll(docs[1..]);
    }
  }

  /** Without category, city or area the count is the collection size. */
  lemma UnfilteredTotal(docs: seq<Property>, req: ListingRequest)
    requires Page(req.page) >= 1 && Limit(req.limit) >= 1
    requires !Supplied(req.filters.category) && !Supplied(req.filters.city) && !Supplied(req.filters.area)
    ensures ListProperties(docs, req).total == |docs|
  {
    NoParamsNoFilter(req.filters);
    SelectAll(docs);
  }

  /** Every match is shown: the i-th match, newest first, is on page
      PageOf(i, limit), at offset i minus that page's skip. */
  lemma EveryMatchShown(docs: seq<Property>, req: ListingRequest, i: nat)
    requires Limit(req.limit) >= 1
    requires i < |Select(docs, FilterSpec(req.filters))|
    ensures var limit := Limit(req.limit);
            var page := PageOf(i, limit);
            var resp := ListProperties(docs, req.(page := Some(page)));
            i - Skip(page, limit) < |resp.properties|
            && resp.properties[i - Skip(page, limit)] == SortNewestFirst(Select(docs, FilterSpec(req.filters)))[i]
  {
    var limit := Limit(req.limit);
    var page := PageOf(i, limit);
    var req' := req.(page := Some(page));
    assert Page(req'.page) == page;
    var ordered := SortNewestFirst(Select(docs, FilterSpec(req.filters)));
    assert ListProperties(docs, req').properties == Window(ordered, Skip(page, limit), limit);
  }
}
