# Property listing query model

A Dafny model of the request-interpretation logic of a small real-estate REST
backend (an Express server over a MongoDB collection of properties). All of
it lives in `index.js`; everything else in that file is routing, setup,
single driver calls and pipelines the database runs server-side.
The model covers:

- **Page window** (`Pagination`): `page` falls back to 1 and `limit` to 8 when
  JavaScript's `parseInt` gives a falsy number (NaN or 0); any other integer,
  negative ones included, is kept as it is. From them, `skip = (page-1)*limit`
  and `totalPages = Math.ceil(total/limit)`.
- **Filter construction** (`Filters`): the filter object starts empty and
  gets `category`, `city` and `area` added, each only when supplied with a
  non-empty value, each mapped to the raw string.
- **The listing** (`Documents`, `Ordering`, `Listing`): over an in-memory
  collection, the filtered count, the matches ordered by `postedDate` newest
  first, and the page `[skip, skip+limit)` of that order, with the response
  `{ total, page, totalPages, properties }`.
- **Sort-stage selection** (`SortStages`): the four named tokens of
  GET /sort-properties and the `$sort` document each selects; any other or an
  absent token selects the empty document.
- **Revenue fallback** (`Dashboard`): `revenueData[0]?.totalRevenue || 0`.

Inputs the model takes as parameters instead of computing: the result of
`parseInt` (an `Option<int>`, `None` for NaN), the query-string values
(`Option<string>`, `None` for absent), the collection (a sequence of
documents), and the rows of the revenue aggregation.

The filter is built in the source by setting properties on one object under
three independent `if`s, and the sort stage by reassigning a local variable
through an if/else-if chain; both are modelled as methods that do the same
(`Filters.BuildFilter`, `SortStages.SelectSortStage`) and are proved equal to
pure definitions, about which the remaining properties are proved. The
arithmetic and the revenue fallback are expressions in the source and
functions here.

A negative page or page size is used as parsed. The page-size default is 8.
An unknown or absent sort token builds the empty sort document; the database
is expected to reject an empty `$sort` stage ("$sort stage must have at least
one sort key"), which would send the request to the error response of
index.js:175-178. That server behaviour is not modelled.

## Model

| member | source | states |
|---|---|---|
| `Pagination.ParsedOr` | index.js:45-46 | the or-fallback of a parsed integer: the result is the fallback or the parsed value unchanged; NaN and 0 give the fallback, every other integer (negative ones too) is kept; the result is never 0 for a non-zero fallback |
| `Pagination.Page` | index.js:45 | the page is 1 exactly when the parse is NaN, 0 or 1; otherwise it is the parsed value; it is never 0 |
| `Pagination.Limit` | index.js:46 | the page size is 8 exactly when the parse is NaN, 0 or 8; otherwise it is the parsed value; it is never 0 |
| `Pagination.Skip` | index.js:47 | page 1 skips nothing; a page ≥ 1 with a non-negative size never skips a negative number |
| `Pagination.TotalPages` | index.js:79 | `Math.ceil(total/limit)` characterised exactly: for a positive size, `(pages-1)*limit < total <= pages*limit` (for a negative size the inequalities turn round); no documents give 0 pages |
| `Pagination.ConsecutivePagesAdjacent` | index.js:47 | page k+1 starts exactly `limit` documents after page k |
| `Pagination.PageStartsInside` | index.js:47 | for page ≥ 1 and limit ≥ 1, the skip lies inside the result exactly when the page number is at most `totalPages` |
| `Pagination.PageOf` | index.js:47 | for a positive page size, every position of the ordered result lies in the window of a page numbered at least 1 |
| `Pagination.PageUnique` | index.js:47 | no position lies in the windows of two different pages |
| `Filters.Supplied` | index.js:54-63 | the truthiness test of a query value: it fails exactly for an absent parameter and for the empty string |
| `Filters.FilterSpec` | index.js:52-64 | the filter's keys are among category, city and area; each is present exactly when its parameter was supplied non-empty, and maps to the supplied string unchanged |
| `Filters.BuildFilter` | index.js:52-64 | adding the supplied fields one at a time to the empty object yields exactly `FilterSpec` |
| `Filters.NoParamsNoFilter` | index.js:52-64 | with none of the three parameters supplied the filter is the empty map |
| `Filters.MatchesFilterSpec` | index.js:67-70 | a document matches the built filter exactly when, for each supplied parameter, it holds that field with exactly that value |
| `Documents.Matches` | index.js:67-70 | the empty filter matches every document, and a matching document holds every field the filter names |
| `Documents.MatchesIsSubMap` | index.js:67-70 | a document matches a filter exactly when every (field, value) pair of the filter is a pair of the document |
| `Ordering.InsertNewestFirst` | index.js:71 | inserting into a newest-first sequence keeps it newest first and adds exactly the one document |
| `Ordering.NewestFirstUnique` | index.js:71 | with pairwise distinct dates, two newest-first permutations of one collection are equal |
| `Ordering.SortNewestFirstIsTheOrder` | index.js:71 | with pairwise distinct dates, any newest-first ordering the database may return is exactly `SortNewestFirst` of the collection |
| `Ordering.SortNewestFirst` | index.js:71 | the result is newest first and a permutation of the input |
| `Listing.Select` | index.js:67-70 | a document is selected exactly when it is in the collection and matches the filter, and each matching document is kept exactly as many times as the collection holds it (so the length is the filtered count) |
| `Listing.Window` | index.js:72-73 | `.skip(s).limit(l)` for a positive size `l`: at most `l` documents, exactly `min(l, n-s)` of them when `s < n` and none otherwise, the i-th being the document at position `s+i` |
| `Listing.ListProperties` | index.js:43-81 | the response echoes the defaulted page, counts the matching documents and reports `TotalPages` of that count; the page is exactly the `[skip, skip+limit)` window of the matches ordered newest first, holds at most `limit` documents, is non-empty exactly when `page <= totalPages` and then ends inside the matches; every document on it is from the collection and matches the filter |
| `Listing.WindowOfPage` | index.js:69-79 | for page ≥ 1 and limit ≥ 1, a page's window is non-empty exactly when the page number is at most the page count, and then ends inside the ordered result |
| `Listing.WindowOfMatches` | index.js:67-74 | every document of a window of the ordered matches is a collection document that matches the filter |
| `Listing.SelectAll` | index.js:67 | the empty filter selects the whole collection, in order |
| `Listing.UnfilteredTotal` | index.js:52-67 | with no category, city or area the reported total is the collection size |
| `Listing.EveryMatchShown` | index.js:69-74 | with the one newest-first order of the model shared by every page request, the i-th match appears on page `PageOf(i, limit)` at offset `i - skip`, so every match is shown on some page |
| `SortStages.StageFor` | index.js:154-159 | the empty stage is selected exactly when the token is absent or not one of the four known tokens; any other stage is selected by its own token |
| `SortStages.SortDocument` | index.js:154-159 | the sort document is empty exactly for the empty stage; otherwise it has one key, `numericPrice` or `postedDate`, with value 1 or -1 |
| `SortStages.SelectSortStage` | index.js:153-159 | the if/else-if chain yields exactly the sort document of the selected stage |
| `SortStages.SortTokenTable` | index.js:156-159 | priceLow → numericPrice 1, priceHigh → numericPrice -1, dateNew → postedDate -1, dateOld → postedDate 1, absent → empty |
| `SortStages.TokenRoundTrip` | index.js:154-159 | every stage is selected by its own token |
| `SortStages.DocumentRoundTrip` | index.js:154-159 | the stage can be read back from its sort document |
| `SortStages.KnownTokensDistinct` | index.js:156-159 | distinct known tokens select distinct sort documents |
| `Dashboard.TotalRevenue` | index.js:241 | no rows give 0; otherwise the first row's total, with a NaN total giving 0; the result is 0 or the first row's total |
| `Dashboard.OnlyFirstRowCounts` | index.js:241 | rows after the first never affect the revenue |

## Left out

- Express routing, CORS and JSON middleware, `app.listen`, the MongoDB client, database and environment setup (index.js:1-33, 304-317): framework and I/O plumbing.
- The single-call handlers: `insertOne`, `findOne`, `updateOne` with `$set`, `deleteOne`, find by email, reviews by property and the latest-eight listing (index.js:36-40, 87-139, 184-210): each is one driver call.
- Identifier parsing with `new ObjectId(id)`: behaviour of the driver.
- The `$regex` search (index.js:142-148): the database's regular-expression semantics.
- The `$toDouble` price conversion and the execution of the `$sort` stage (index.js:161-172): a server-side floating-point conversion; the model stops at the sort document the handler builds.
- The dashboard counts and the `$group`/`$month`/`$project` pipelines (index.js:224-238, 268-289): executed by the server; only the `|| 0` fallback is modelled.
- The string parsing of `parseInt` and the error responses of the `catch` blocks (index.js:82-84, 175-178, 250-253, 297-300).
- Query parameters that are not plain strings: a parameter given more than once (which the query parser turns into an array) or written with brackets (`?category[$ne]=x`, which it turns into an object such as `{ $ne: "x" }`). Such a value is truthy, enters the filter as it is and is read by the database as an operator or an array match, not an exact match; the model takes each parameter as one string or absent.
- `Listing.ListProperties`: requires the defaulted page and page size to be at least 1. For a negative page or page size the handler hands a negative skip or limit to the driver, and what the driver does with those is not modelled.
- `Ordering.SortNewestFirst`: the order among documents with equal `postedDate` is the one this insertion sort produces; the database promises no particular order for ties. With pairwise distinct dates the order is unique (`Ordering.NewestFirstUnique`).
- `Listing.EveryMatchShown`: holds only when each page request sees the matches in the same order. Each page is its own query (index.js:69-74), and the database may order tied `postedDate` values differently from one query to the next, so a tied match that straddles a page boundary may be shown twice or not at all. With pairwise distinct dates every newest-first order is the modelled one (`Ordering.SortNewestFirstIsTheOrder`), and the lemma then holds for any order the database picks.
- `Pagination.ParsedOr`: the parse result is taken as an exact integer. `parseInt` yields a double: digit strings beyond the double range parse to ±Infinity (truthy, so kept as the page or page size), and integers beyond 2^53 parse to rounded values. Neither is modelled.
- `Pagination.Skip`: `(page - 1) * limit` is taken as exact integer arithmetic; the rounding of the double product for operands beyond 2^53, and an infinite skip, are not modelled.
- `Pagination.TotalPages`: exact integer ceiling; the floating-point division of `Math.ceil(total / limit)` agrees with it for the counts a collection can hold, and a `-0` result is read as 0.
- `Dashboard.TotalRevenue`: the total is an exact real, not a double; None stands for a NaN total.
- Documents are modelled with string fields and an integer `postedDate`; documents without a `postedDate`, or with non-string values in the filtered fields, are not modelled.
- The listing's count and its page are read from one collection value; the two separate database round trips, which may see different snapshots under concurrent writes, are not modelled.

