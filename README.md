# Low-price calendar poller, modelled in Dafny

The poller fills a table of fares: for each of ten hard-coded routes
("ALA-TSE", "TSE-ALA", …) and each of 32 days starting today, it asks a
flight-search API for offers. When the answer is not empty, it appends
`(date, price)` of the first offer to that route's list. It also appends
`(route, booking_token)` to a list of booking references. The collected
table is not sorted or cached at this point. Instead every booking token is
re-checked against a booking-check endpoint, which leads to marking the
route, re-running the check pass, or running a full refresh. `create_cache`,
which sorts each route's list by price and then writes a CSV file, is
called from two places only. The invalid-flight branch calls it after
appending a marker, and there the sort fails. The refresh branch calls it
on a newly collected table.

This project models the in-memory bookkeeping of `task.py`:

- `Json.dfy`: the JSON values the check endpoint returns, with Python
  truthiness.
- `RouteKeys.dfy`: `str.split('-')` with its inverse `Join`, and the route
  table.
- `Fares.dfy`: the search query for a key and a day, the entries of a
  route's list, and booking references. It also has functions giving what
  one collection pass produces for a given pricing API: `Series`,
  `TokenSeries`, `CollectedTokens` and `CollectedTable`, with lemmas about
  them.
- `Cache.dfy`: the stable sort by price that `list.sort(key=lambda tup:
  tup[1])` performs, and the effect of `create_cache`'s sort loop
  (`CacheStep`). A marker entry makes the key function raise `KeyError`.
- `Validation.dfy`: the per-token decision of `check_valid_ticket`
  (`Decide`), and the position where a pass stops (`FirstStop`).
- `Store.dfy`: the class `FareStore`, with `routeDict` and `bookingTokens`
  updated in place by `AddData`, `Collect`/`CollectRoute`, `CreateCache`
  and `CheckValidTickets`. It also has `GetDataFromApi` and the refresh
  branch `Refresh`.

The pricing API is a parameter `api: Query -> seq<Offer>`, returning the
`data` list. The check endpoint is a parameter `check: Token ->
CheckResponse`. Dates are day offsets 0 .. 31.

Behaviour of the code that the model keeps:

- The query for key "A-B" asks for flights from B to A (`QueryReversesRoute`).
- `price_change` is read from the same field as `flights_checked`. So when
  no flight is invalid, a confirmed offer always counts as a price change.
  The "no action" outcome can never happen (`Decide`).
- One might expect a confirmed offer with no invalid flight to need no
  action. The code runs a full refresh for it instead, and the model
  follows the code (`Decide`).
- When an offer is invalid, its route gets a `{'flights_invalid': v}`
  marker and `create_cache` runs. Its key function then reaches the marker
  and raises `KeyError` outside the `try`. The routes before the failing
  one are already sorted; that route and the later ones are untouched. The
  pass aborts (`CheckValidTickets`, `MarkerBlocksCache`).
- An unconfirmed offer re-enters the whole pass. This is returned as the
  outcome `Revalidating(i)` with the table unchanged. Because `FirstStop`
  depends only on the token list and the check answers, the re-entered
  pass stops at the same token again. With a fixed check endpoint the
  recursion never ends normally.

## Model

| member | source | states |
|---|---|---|
| `RouteKeys.Split` | task.py:98 | `key.split('-')` always yields at least one piece, and no piece contains the separator |
| `RouteKeys.JoinSplit` | task.py:98 | joining the pieces of a split with the separator gives back the key |
| `RouteKeys.SplitJoin` | task.py:98 | splitting a join of separator-free pieces gives back exactly those pieces |
| `RouteKeys.KeyStartsWithParts` | task.py:98-100 | every key with at least two pieces is `lst[0]`, the separator and `lst[1]`, either exactly or followed by a further separator, so `lst[1]` is the whole second piece |
| `RouteKeys.KeyParts` | task.py:98-100 | for the key "A-B", `lst[0]` is A and `lst[1]` is B |
| `RouteKeys.RoutesDistinct` | task.py:77-88 | the route table has ten keys, none repeated |
| `RouteKeys.RoutesWellFormed` | task.py:77-88 | every hard-coded key splits into two three-letter codes, so `lst[1]` exists |
| `Fares.BuildQuery` | task.py:98-107 | the query's endpoints are separator-free; the key is `fly_to`, the separator and `fly_from`, either exactly or followed by a further separator; the date is the given day, the currency KZT, with one adult, no children and no infants |
| `Fares.QueryReversesRoute` | task.py:98-107 | for key "A-B" the query has `fly_from` = B and `fly_to` = A, the given date, currency KZT and one adult |
| `Fares.SeriesEntries` | task.py:28-31 | every entry a pass records for a route is an observation of a day in the window whose answer was non-empty, with that answer's first price; the i-th reference for the route carries the same answer's token |
| `Fares.SeriesIncreasing` | task.py:102-115 | a route's observations are in strictly increasing day order |
| `Fares.SeriesCountsAnsweredDays` | task.py:102-115 | a route holds exactly as many observations as there were days with a non-empty answer |
| `Fares.SeriesComplete` | task.py:102-115 | every day with a non-empty answer has its observation in the route's list |
| `Fares.SkippedDay` | task.py:111-112 | a day with an empty `data` list adds no observation and no reference, and no observation carries that day |
| `Fares.TokenSeriesRoute` | task.py:30-31 | every booking reference scanned for a route names that route |
| `Fares.CollectedTokensCount` | task.py:96-115 | the token list has exactly as many references as the table has entries over all routes |
| `Fares.TokensOfCollected` | task.py:96-115 | filtered to one route, the token list is that route's own references in date order; references follow route-then-date order |
| `Fares.TokenMatchesObservation` | task.py:28-31 | after a pass, the i-th reference of a route was taken from the same answer as the i-th observation of that route |
| `Fares.CollectedTableShape` | task.py:77-92 | after a pass the table has exactly the scanned keys; each list holds only observations, in increasing day order, at most 32 of them, all dated inside the window |
| `Cache.SortByPrice` | task.py:136 | the sort keeps the length and yields `(date, price)` pairs only |
| `Cache.SortByPriceSorted` | task.py:136 | the sorted list is non-decreasing by price and a permutation of the input |
| `Cache.SortByPriceStable` | task.py:136 | for every price, entries with that price keep their relative order |
| `Cache.SortKeepsDateOrder` | task.py:136 | sorting a list recorded in date order leaves equal prices in date order |
| `Cache.SortByPriceKeepsSorted` | task.py:136 | a list already in price order is left unchanged |
| `Cache.SortByPriceIdempotent` | task.py:135-136 | sorting twice gives the same lists as sorting once |
| `Cache.FirstMarked` | task.py:135-136 | finds the first route, in iteration order, whose list holds a marker: every earlier list holds pairs only |
| `Cache.MarkerBlocksCache` | task.py:136 | once a marker is appended to a route, the sort fails at that route or an earlier one, so the DataFrame and CSV steps are never reached |
| `Cache.CleanTableSortsFully` | task.py:135-136 | when no list holds a marker, the sort loop runs to its end without `KeyError` and every list is sorted |
| `Cache.CacheStep` | task.py:135-136 | the sort loop ends normally exactly when no list holds a marker; a `KeyError` names a route whose list holds one |
| `Json.Truthy` | task.py:185-193 | the values the `if` / `not` tests treat as false are exactly `None`, `False`, `0`, `""`, `[]` and `{}` |
| `Validation.Decide` | task.py:177-197 | invalid flights mark the route; otherwise unconfirmed flights re-run the pass; otherwise a refresh runs. No-action cannot happen because `price_change` aliases `flights_checked` |
| `Validation.FirstStop` | task.py:168-197 | the pass refreshes for every token before the stop position, and the token at the stop is not a refresh |
| `Store.FareStore.Empty` | task.py:77-90 | the table starts with an empty list for every route, and the token list starts empty |
| `Store.FareStore.AddData` | task.py:14-32 | appends exactly one `(date, first price)` to the key's list and one `(key, first token)` to the token list; every other route is unchanged; a table whose keys each appear once and whose references name its keys stays so |
| `Store.FareStore.CollectDay` | task.py:103-115 | one day of one route: an empty answer changes nothing, otherwise exactly the observation and reference of the first offer are appended |
| `Store.FareStore.CollectRoute` | task.py:102-115 | the 32-day loop for one route leaves that route holding its series and appends its references; other routes are unchanged |
| `Store.FareStore.ScanNext` | task.py:96-115 | one route of the outer loop: the routes scanned so far hold their series and references in scan order, one more route afterwards |
| `Store.FareStore.Collect` | task.py:96-115 | the route-by-date loop leaves the table equal to the collected table and the token list equal to the collected references |
| `Store.GetDataFromApi` | task.py:68-122 | a fresh table over exactly the ten routes, holding the collected series and references |
| `Store.FareStore.CreateCache` | task.py:125-136 | sorts the lists in key order up to the first list holding a marker; reports `KeyError` for that route and leaves it and all later lists untouched |
| `Store.FareStore.CheckValidTickets` | task.py:150-197 | refreshes leave the table alone; the pass stops at the first unconfirmed token with the table unchanged, or at the first invalid one, appending its marker and running the failing sort |
| `Store.Refresh` | task.py:193-197 | the refresh builds and sorts a new table without touching the caller's, and its sort loop never raises `KeyError` |

## Left out

- HTTP requests, sessions and the error printing in `process` (task.py:35-58) are not modelled. The two endpoints are function parameters, so each query always gets an answer. The same query always gets the same answer.
- A `None` answer after a failed request is not modelled. A check answer missing `flights_checked` or `flights_invalid` is not modelled either. The code would crash on both.
- `thread_pool` (task.py:61-66) runs one call in a child process and waits for it. It is modelled as a direct call.
- `date.today()`, `timedelta` and the `DD/MM/YYYY` formatting (task.py:103-104) are replaced by day offsets 0 .. 31.
- The query URL is modelled as a record of its parameters, not as a string. The check query (task.py:170-172) is modelled only through its booking token.
- Prices are integers; a JSON float price is not modelled.
- `Json.Value` has no float case, so the truthiness of a float such as `0.0` in `flights_checked` or `flights_invalid` is not modelled.
- The timer and all printed progress lines (task.py:74, 94, 117-121, 181-198) are not modelled.
- `create_cache`'s directory creation, DataFrame construction and CSV write (task.py:138-147) are not modelled. The outcome `CacheWritten` means only that the sort loop finished without `KeyError`.
- Whether the DataFrame can be built is not modelled. `pd.DataFrame.from_dict` (task.py:144) raises `ValueError` when the routes hold lists of different lengths, and `except IOError` does not catch it. So even after a clean sort the write may fail and end the process.
- `list.sort` is modelled by the stable insertion sort `SortByPrice`. The sorted list replaces the route's entry in the map; there is no in-place array.
- Store.FareStore.CheckValidTickets: the recursive call (task.py:192) is not made; it is returned as `Revalidating`. The refresh (task.py:196-197) is not made inside the pass either. It is a `Refresh` decision, and `Store.Refresh` models what it does.
- The driver `main` (task.py:201-214) is not modelled: it loops forever with a one-second sleep.
