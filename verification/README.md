# AgroTech dashboard: commodity acquisition and data shaping

This project models the sequential logic inside the AgroTech Intelligence
Platform dashboard, a Streamlit page of commodity prices and state
productivity. Two pieces are modelled.

- **Commodity series acquisition** (`api_connector.py`). The request URL is
  built from the commodity and the API key. The outcome of the HTTP round trip
  is classified, and each class maps to one of three results: a warning plus
  the synthetic series, an error plus the synthetic series, or the normalised
  payload. Normalisation has four steps. Each field is parsed with a coercing
  parser, so a failed parse becomes missing. Missing values are then
  forward-filled in original row order. Rows still missing a field are
  dropped. The rest are sorted by date. The synthetic series has twelve
  month-end points with value `100 + 5i + 10(i mod 3)`.
- **Page data shaping** (`app.py`). Each GeoJSON state feature gets a
  productivity figure and a display name, and any failure gives an empty
  collection. Other pieces: the base-map tile lookup with its OpenStreetMap
  default, the analytic table's column selection and inclusive date window,
  and the capped table height.

Modules: `Optional` (option type), `Series` (points and the date sort),
`Normaliser` and `NormaliserFacts` (the normalisation pipeline and its
consequences), `MockData`, `Fetcher`, `GeoData` and `Dashboard`.

Modelling choices:

- Dates are abstract integer ordinals and values are `real`.
- The coercing parsers `pd.to_datetime`/`pd.to_numeric` are foreign code. Each
  payload cell is therefore given as `Absent` (the row has no such key),
  `Unparseable`, or `Parsed(v)`.
- A DataFrame column exists when at least one row carries the key. Reading the
  `date` or `value` column of a payload where no row has that key raises
  `KeyError`. The model handles this as the unexpected-error path. The date
  column is read first.
- The HTTP transport is a parameter, `respond`, which maps the request URL to
  an abstract outcome. The current date appears only as the ordinal of the
  last month end on or before today.
- The pandas sort is unstable. The contracts therefore promise only a
  date-sorted permutation of the surviving rows. The model itself uses an
  insertion sort.

Behaviours of the code worth knowing:

- A non-empty payload in which some row has a `date` key and some row has
  a `value` key, but every row still lacks a field after the fill, returns
  the empty series. There is no fallback after normalisation
  (`Fetcher.UnparseableDatesYieldEmptySeries`). Without a `date` or a
  `value` key anywhere, the column lookup fails instead and the synthetic
  series comes back with the unexpected-error notice
  (`Fetcher.MissingDateKeyIsUnexpected`).
- The fill runs before the drop. A row dropped for a bad date still passes
  its value to the next row (`NormaliserFacts.FillFromDroppedRow`).
- The last synthetic value is `100 + 55 + 20 = 175`.
- The newest synthetic date is the last month end on or before today.
- The code never checks the HTTP status, so a non-2xx reply is classified by
  its decoded body like any other payload.

## Model

| member | source | states |
|---|---|---|
| Series.SortByDate | api_connector.py:36 | the sort by date returns a date-ascending permutation of its input (same multiset, same length) |
| Series.SortKeepsIncreasing | api_connector.py:36 | a series with strictly increasing dates is returned unchanged by the sort |
| Normaliser.Coerce | api_connector.py:33-34 | a coerced field is present exactly when it parsed, and then holds the parsed value |
| Normaliser.ParseRows | api_connector.py:33-34 | coercion keeps the number of rows and coerces each row's two fields independently |
| Normaliser.FillFrom | api_connector.py:34 | the fill with a carry keeps present values, repeats the predecessor's filled value for a missing one, and uses the carry for a leading gap |
| Normaliser.ForwardFill | api_connector.py:34 | forward fill keeps present values, copies the previous filled value into a gap, and leaves a leading gap missing |
| Normaliser.LastParsed | api_connector.py:34 | the reference "last present value" exists exactly when some value is present |
| Normaliser.FillFromIsLastParsed | api_connector.py:34 | at every row the fill with a carry equals the last present value up to that row, or the carry when there is none |
| Normaliser.FillIsLastParsed | api_connector.py:34 | the forward fill at row i is the nearest present value at or before row i in original order |
| Normaliser.LeadingMissingStays | api_connector.py:34 | a filled value is missing exactly when every value up to that row is missing (no backward fill) |
| Normaliser.FillComesFromNearestEarlier | api_connector.py:34 | a filled value comes from an earlier-or-same row with only missing values in between |
| Normaliser.FillValues | api_connector.py:34 | filling the value column keeps the number of rows and every row's date |
| Normaliser.DropMissing | api_connector.py:36 | dropping yields exactly the points of rows whose date and value are both present, never more rows than the input |
| Normaliser.DropMissingCounts | api_connector.py:36 | every complete row is kept exactly once: a point occurs as often as there are rows carrying that date and value |
| Normaliser.PipelineIsReference | api_connector.py:33-34 | the coerce-then-fill table equals the reference table built from "last present value up to the row" |
| Normaliser.SurvivorsOfReference | api_connector.py:36 | the points kept from the reference table are exactly those of surviving rows |
| Normaliser.Normalise | api_connector.py:32-36 | the normalised series is date-sorted, no longer than the payload, a permutation of the surviving rows, and contains a point iff some row has that parsed date and that filled value |
| NormaliserFacts.NoParsedDateYieldsEmpty | api_connector.py:33-36 | if no date parses, the normalised series is empty |
| NormaliserFacts.NoParsedValueYieldsEmpty | api_connector.py:34-36 | if no value parses, nothing can be filled and the series is empty |
| NormaliserFacts.CompleteRowSurvives | api_connector.py:33-36 | a row whose own date and value parse always appears with exactly those fields |
| NormaliserFacts.FillFromDroppedRow | api_connector.py:33-36 | a row with a bad value takes its value from the previous row even though that row is dropped for a bad date |
| NormaliserFacts.FillAcrossGap | api_connector.py:34 | the values [10, missing, missing, 40] fill to [10, 10, 10, 40] |
| MockData.GenerateMockData | api_connector.py:45-49 | the synthetic series has 12 strictly increasing dates ending at the last month end; its values start at 100, end at 175, stay within [100, 175], and step by +15, except -15 after every index that is 2 mod 3 |
| MockData.MockIsSorted | api_connector.py:47 | the synthetic series is already sorted and the sort leaves it unchanged |
| MockData.MockNotMonotone | api_connector.py:48 | the synthetic values fall from the third to the fourth point |
| Fetcher.RequestUrl | api_connector.py:22 | the URL is the fixed prefix, the commodity, the fixed interval part and the key text, in that order, with nothing added |
| Fetcher.SplitUrl | api_connector.py:22 | whatever the splitter reads back from a URL rebuilds that same URL |
| Fetcher.UrlRoundTrip | api_connector.py:22 | a commodity without '&' is read back intact from its URL, together with the key text |
| Fetcher.UrlNotEscaped | api_connector.py:22 | because nothing is escaped, every commodity containing the interval part yields the same URL as a shorter commodity with a key carrying the rest |
| Fetcher.Show | api_connector.py:28-42 | only the missing-data notice is shown as a warning; both failure notices are errors |
| Fetcher.ShowInjective | api_connector.py:28-42 | different notices have different banners, so the cause of a fallback and its message can be told apart |
| Fetcher.Classify | api_connector.py:21-43 | the payload is normalised exactly when it has non-empty data with both columns; every other outcome gets the synthetic series; a transport failure gives the connection notice with its message, missing/empty data gives the warning, and any other failure gives the unexpected-error notice; a normalised series is exactly the normalised payload, so each surviving row appears once and it is never longer than the payload |
| Fetcher.FetchCommodityData | api_connector.py:12-43 | the reply to the request URL is normalised exactly when it is usable, and otherwise the synthetic series is returned with the notice fixed by the reply: the connection notice with the transport's message, the unexpected-error notice with the failure text, the no-data warning for missing or empty data, or the quoted missing column |
| Fetcher.FetchIsClassified | api_connector.py:12-43 | the acquisition is the classification of the reply to the request URL, so a usable reply yields exactly its normalised payload and every promise of `Fetcher.Classify` carries over |
| Fetcher.AlwaysSortedSeries | api_connector.py:21-43 | every outcome gives a date-sorted series; a fallback always has 12 points, and every point of a normalised series comes from a surviving payload row; no outcome escapes as an exception |
| Fetcher.UnparseableDatesYieldEmptySeries | api_connector.py:27-36 | a non-empty payload in which every date fails to parse and some row has a `value` key gives the empty normalised series, not the synthetic one |
| Fetcher.MissingDateKeyIsUnexpected | api_connector.py:32-43 | rows with no `date` key at all give the unexpected-error notice plus the synthetic series |
| GeoData.ProductivityOf | app.py:33-47 | the lookup gives the table's figure for a listed state, 0 for any other hashable key, and raises for a list or object key |
| GeoData.NameOf | app.py:48 | the display name is the `name` property, or the empty string when there is none |
| GeoData.EnrichFeature | app.py:44-49 | a feature is enriched exactly when it has object properties with a hashable `sigla`; only `produtividade` and `nome` are set, and all other properties and fields stay the same |
| GeoData.EnrichAll | app.py:44-49 | the list succeeds exactly when every feature can be enriched, and then keeps the number and order of features, each enriched |
| GeoData.EnrichDocument | app.py:44-51 | the loop succeeds exactly when the document's `features` can be walked without raising; only the feature list is replaced |
| GeoData.LoadGeodata | app.py:25-59 | a failed download or any failing feature gives the empty FeatureCollection, and otherwise the enriched document is returned |
| GeoData.OneBadFeatureEmptiesAll | app.py:44-59 | a single feature that cannot be processed empties the whole result, and no partially enriched collection is returned |
| GeoData.WellFormedCollectionEnriched | app.py:44-51 | a collection of processable features keeps its other entries and its feature count and order, with every feature enriched |
| Dashboard.TileFor | app.py:403 | a known base-map name gets its own tile entry; an unknown name gets the OpenStreetMap entry |
| Dashboard.TileFallback | app.py:64-77 | OpenStreetMap tiles are used exactly when the name is neither of the two other base maps |
| Dashboard.InWindow | app.py:580 | the reference window filter keeps exactly the rows dated within [start, end], and keeps increasing dates increasing |
| Dashboard.IncreasingUnique | app.py:580 | two strictly increasing row lists with the same members are equal, so the window's contents fix its order |
| Dashboard.SearchFirst | app.py:580 | the binary search returns the boundary between rows before the label and rows at or after it (or after it) |
| Dashboard.SliceByLabel | app.py:580 | slicing a sorted index between two labels gives the rows of the inclusive window, in order |
| Dashboard.ProjectRecord | app.py:580 | a projected row keeps its date and exactly the selected cells, with their values |
| Dashboard.Project | app.py:580 | column selection keeps every row, in order, each projected |
| Dashboard.AnalyticFilter | app.py:580 | the filter fails exactly when a selected column is unknown or the window has fewer than two dates; otherwise it returns the selected columns in order, for the rows within [start, end], in order |
| Dashboard.TableHeight | app.py:607 | the height never exceeds 600, and equals 35 per row plus one header line exactly when there are at most 16 rows |
| Dashboard.TableHeightMonotone | app.py:607 | more rows never give a shorter table |

## Left out

- The HTTP requests, their 10 s/30 s timeouts, and JSON decoding (api_connector.py:25, app.py:30) are not modelled. They are network I/O. Their result is an abstract outcome: `FetchOutcome` for the series, and an optional `Json` value for the map.
- The one-hour `st.cache_data` memoisation and the load-time caches (api_connector.py:7-10, app.py:24, app.py:180) are left out. They are framework decorators whose behaviour is not visible in the source.
- Calendar arithmetic is not modelled. This covers month-end anchoring in `pd.date_range(..., freq='M')` and date-string parsing. Dates are ordinals, and consecutive synthetic month ends are consecutive ordinals.
- The string parsers behind `pd.to_datetime`/`pd.to_numeric` are foreign code. Each cell arrives already classified as absent, unparseable or parsed.
- Extra payload keys besides `date` and `value` are not modelled. `dropna` would also drop rows with a missing extra field.
- A truthy `data` field that is not a list of rows is not modelled.
- Python `int` and `float` are merged into `real`. The default productivity `0` is modelled as `0.0`.
- Dictionary key order is not modelled, because `map` is unordered.
- Floating-point analytics are left out: `pct_change`, rolling means, LOWESS/OLS trend lines, colormap scaling and the progress ratio (app.py:315, 396-400, 629, 658).
- Streamlit, Plotly, Folium and Vega rendering, CSS, and the exports (`convert_df`, shapefile zipping) are left out. These are foreign library calls (app.py:209-219, 530-542).
- `Config` environment loading (config.py) is left out. The API key is a parameter, and an unset key is interpolated as the text `None`.
- The `st.error` banner shown when the map data fails to load (app.py:54) is not modelled. It is a UI side effect; the model returns only the empty FeatureCollection.
- Dashboard.AnalyticFilter: requires strictly increasing index dates. The table's index is always a generated monthly range (app.py:182). Label slicing on an unsorted index, which pandas rejects, is not modelled.
- Dashboard.AnalyticFilter: the two ways the filter can fail are not told apart; each gives `None`.
