# Crypto price dashboard: the table pipeline

This project models the data side of `crypto_app.py`, a Streamlit page that
scrapes CoinMarketCap's listings and shows them as tables and a bar chart.
It covers these parts of the script:

- **Loading** (`load_data`): finds the listings in the page's `__NEXT_DATA__`
  JSON under `props/initialState/cryptocurrency/listingLatest/data`. It then
  projects each listing into one flat row: slug, symbol, and price, 1h/24h/7d
  percent change, market cap and 24h volume from the quote for the chosen
  currency unit.
- **The script after loading**: it stops on an empty table. Otherwise it keeps
  the rows whose symbol is selected (by default every symbol, offered in sorted
  order) and caps them to the first N (1 to 100). It then builds the change
  table with one strictly-positive flag per percent column, and sorts that
  table by the chosen timeframe's column when sorting is on.

Modules:

- `wrappers.dfy` (`Wrappers`): `Option` and `Result`.
- `ordering.dfy` (`Ordering`): one insertion sort over a total preorder.
  Python's `sorted` on the symbol column and pandas' `sort_values` on a
  percent column are both modelled by it. It also holds Python's string order
  (`LexLe`).
- `listings.dfy` (`Listings`): listings, quotes and rows, and the walk down
  the JSON key path. `Normalize` is the projection as a function.
  `LoadData` is the source's loop, which fills eight column lists one listing
  at a time; it is proved equal to the function.
- `dashboard.dfy` (`Dashboard`): the timeframe selector, the filter, the cap,
  the change table, the sort, and one run of the whole script (`Render`).

Two behaviours of the code are worth stating outright:

- The quote lookup for the chosen currency unit (crypto_app.py:48-53) sits
  outside the `try` at lines 37-43. A listing without a quote for that unit
  therefore raises `KeyError` at the first such listing
  (`Raised(QuoteMissing(i))`); no listing is dropped.
- `sort_values` uses a quicksort by default, which is not stable. So the
  contracts promise a sorted permutation and no contract fixes the order of
  ties.

## Model

| member | source | states |
|---|---|---|
| Listings.DescendAppend | crypto_app.py:40 | walking a key path in two pieces is the same as walking it whole, so a missing key at any depth ends the walk |
| Listings.LocateMissingKey | crypto_app.py:37-43 | if any key of the listings path is missing at any depth, the guarded lookup fails with ShapeChanged (the empty table) |
| Listings.NormalizeOk | crypto_app.py:44-63 | when every listing has a quote for the unit, there is exactly one row per listing, in listing order; each row holds the slug, the symbol and the six quote values unchanged |
| Listings.NormalizeMissing | crypto_app.py:45-53 | if listing i is the first without a quote for the unit, loading fails at listing i |
| Listings.NormalizeErrIsFirstMissing | crypto_app.py:45-53 | every failure of the projection is a missing quote, and it names the first listing that lacks one |
| Listings.NormalizeOkIsQuoted | crypto_app.py:45-53 | a successful projection means every listing had a quote for the unit, so no listing is dropped silently |
| Listings.LoadData | crypto_app.py:33-64 | the loop over listings that fills eight column lists gives exactly the table or the error that the specification function Load gives |
| Ordering.InsertPermutes | crypto_app.py:70 | inserting into a sequence adds exactly that element |
| Ordering.InsertSorted | crypto_app.py:70 | inserting into a sorted sequence keeps it sorted under a total preorder |
| Ordering.SortPermutes | crypto_app.py:70 | the sort returns exactly the input's elements, with their multiplicities |
| Ordering.SortSorted | crypto_app.py:70 | under a total preorder, the sort returns an ascending sequence |
| Ordering.LexLeTotal | crypto_app.py:70 | any two strings compare one way or the other under Python's string order |
| Ordering.LexLeTransitive | crypto_app.py:70 | Python's string order is transitive |
| Ordering.LexLeIsTotalPreorder | crypto_app.py:70 | Python's string order is a total preorder, so sorting the symbol column is well defined |
| Dashboard.SymbolOptionsSortedPermutation | crypto_app.py:70-71 | the multiselect's options (and default selection) are the symbol column in ascending order, each symbol as often as in the table |
| Dashboard.FilterAppend | crypto_app.py:72 | the symbol filter works row by row, so the kept rows stay in their relative order |
| Dashboard.FilterMembers | crypto_app.py:72 | a row is kept if and only if it is in the table and its symbol is selected |
| Dashboard.FilterKeepsAll | crypto_app.py:72 | when every symbol of the table is selected, the table is unchanged |
| Dashboard.FilterEmptySelection | crypto_app.py:72 | an empty selection keeps no row |
| Dashboard.DefaultSelectionKeepsAll | crypto_app.py:70-72 | with the default selection (all symbols, sorted), the filtered table is the whole table in its order |
| Dashboard.Cap | crypto_app.py:73-74 | the capped table is a prefix of the filtered one of at most N rows, and is all of it when it has fewer than N rows |
| Dashboard.ChangeTable | crypto_app.py:92-96 | one change row per capped row, in order, keyed by its symbol, with the three percent values unchanged and each flag true exactly when its value is strictly greater than 0 |
| Dashboard.SelectorAgrees | crypto_app.py:75-117 | for each of the labels 7d, 24h and 1h, the dictionary names the percent column of the same timeframe that the chart branch uses, and that column holds that timeframe's value |
| Dashboard.SortByPercentSpec | crypto_app.py:100-117 | sorting the change table by a timeframe gives a permutation of it, ascending in that timeframe's column |
| Dashboard.RenderStopsOnMissingKey | crypto_app.py:37-68 | a key missing anywhere on the listings path stops the run, with no table built |
| Listings.LocateNotAnObject | crypto_app.py:37-43 | if a value on the listings path is not an object, so the next subscript fails, the guarded lookup fails with ShapeChanged (the empty table) |
| Dashboard.RenderStopsOnNonObject | crypto_app.py:37-68 | a value on the listings path that is not an object stops the run, with no table built |
| Dashboard.RenderStopsWithoutScript | crypto_app.py:37-68 | a page without the `__NEXT_DATA__` script, or whose script text is not JSON, stops the run |
| Dashboard.RenderStopsOnNoListings | crypto_app.py:44-68 | an empty listings array gives the empty table, which stops the run |
| Dashboard.RenderRaisesOnMissingQuote | crypto_app.py:44-53 | a listing without a quote for the chosen unit makes the run fail at the first such listing instead of being dropped |
| Dashboard.RenderDefaultSelection | crypto_app.py:44-74 | with fully quoted listings and the default selection, the download table is every listing projected in order, and the price table is its first min(N, count) rows |
| Dashboard.CapThenSort | crypto_app.py:72-117 | the price table is the first min(N, filtered) rows of the filtered table; the chart is a permutation of their change rows, so no row past the cap appears; it is ascending by the chosen column when sorting is on and in capped order when it is off |
| Dashboard.RowsPastCapIgnored | crypto_app.py:72-117 | once the selected rows fill the cap, whatever rows follow in the table, the price table, change table and chart are the same |
| Dashboard.EmptySelectionShowsNothing | crypto_app.py:70-97 | an empty selection gives an empty price table, an empty download table, an empty change table and no chart rows |
| Dashboard.SortedTwoCoinRun | crypto_app.py:92-117 | BTC at +2.5% and ETH at -1.2% over 24h, top 2, sorted: the chart is ETH then BTC, with only BTC's 24h flag set |

## Left out

- Streamlit presentation is not modelled: page config, logo, title, markdown,
  expander, sidebar widgets, `dataframe`/`write`, `pyplot`. The widgets' values
  are the parameter `Inputs`. What is shown is the value `Screen`.
- The HTTP request, HTML parsing and `json.loads` are not modelled. Their
  outcome is a parameter: `None` when the `__NEXT_DATA__` script is missing or
  its text is not JSON, otherwise the parsed tree (`Json`). A `requests.get`
  that raises (line 35, outside the `try`) ends the run with an uncaught
  error; the model has no such outcome.
- `@st.cache_data` memoisation is not modelled. Each `Render` is one uncached
  run. `load_data` takes no arguments and reads the global currency unit,
  while the cache is keyed on arguments and code. So after the first run,
  choosing another unit shows the first unit's table again. `Inputs.unit` is
  the unit the table would hold on an uncached run.
- `filedownload` (CSV text and base64 encoding) is not modelled. `Screen.download`
  is the table it would encode: the filtered table before the cap.
- The matplotlib chart and its green/red colours are not modelled. The chart
  is the rows it plots, in order, with the chosen timeframe. The colour of a
  bar is the row's flag for that timeframe.
- NaN and other floating-point details are not modelled. Percent values are
  `real`. The code only compares them with 0 and with each other.
- Sort ties: pandas' default sort is not stable. The model's insertion sort
  fixes one tie order, and no contract depends on it.
- A non-array value at the listings path becomes the uncaught error
  `NotAList`. In Python, an empty object or an empty string there would
  iterate zero times and give an empty table instead.
- Listing fields other than the unit's quote are always present, by type.
  A listing without `slug`, `symbol` or one of the six quote fields would
  also raise `KeyError` in Python. A listing, its `quote` or `quote[unit]`
  that is not an object raises `TypeError` at lines 46-53, also uncaught;
  `ListingArray` cannot hold such values.
- Dashboard.EmptySelectionShowsNothing: with zero capped rows the source draws
  both tables and then fails in pandas' bar plot at lines 105/111/117, because
  pandas rejects an empty colour list; the model's `chart` is the rows handed
  to the plot, and the model has no such failure.
- The coin multiselect only offers the table's symbols. `Chosen` accepts any
  symbols, and the filter treats them the same way.
- The timeframe selector only offers 7d, 24h and 1h, so `percent_dict`
  cannot raise. `Inputs` carries a `Timeframe`. `SelectorAgrees` relates the
  labels to it.
- Calling the pipeline twice with the same inputs gives the same result. This
  holds because Dafny functions are deterministic, so no lemma states it.
- The REST-API variant of the dashboard and its 30-day price history are not
  part of this model.
