# GBIF occurrence search: a Dafny model

This project models the logic of the Biodiversity Informatics Tool, a small
Streamlit page that asks GBIF (the Global Biodiversity Information Facility)
for the occurrence records of one species. It covers three steps:

- **Query parameters.** `get_gbif_occurrences` turns a species name, a record
  limit, an optional year range and an optional bounding box into the query
  parameters of one GET request to the GBIF occurrence-search endpoint
  (module `Query`).
- **Response flattening.** It walks the `results` list of the decoded reply.
  It keeps the results that have both a `decimalLatitude` and a
  `decimalLongitude` key. Each kept result becomes a six-field row
  (module `Occurrences`).
- **What happens with an unexpected reply.** The source checks nothing about
  the shape of the reply. Module `Response` follows what Python does with each
  JSON shape, including which exception escapes.

Two smaller pieces complete the model:

- the page's guard on an empty species name and the outcome of one
  query cycle (module `App`);
- the name of the CSV download (module `Export`).

Helper modules:

- `Wrappers`: `Option` and `Result`.
- `Text`: decimal rendering and parsing of integers, `a,b` pairs,
  single-character replacement and the substring test.
- `Json`: the decoded JSON value.

Inputs the model takes as parameters instead of computing:

- **The decoded reply.** The HTTP GET and `response.json()` belong to the
  `requests` library. The reply comes in as a `Json` value, already decoded.
- **How a coordinate becomes text.** This is a function parameter `show`.
  The bounding-box round trip is proved for any `show` whose output contains
  no comma. Python's float rendering never emits one.

## Model

| member | source | states |
|---|---|---|
| Query.BuildParams | app.py:9-23 | `scientificName` is the name verbatim, `limit` reads back as the given limit, and `hasCoordinate` is `"true"`. `year` exists iff a range is given and holds `start,end`. Both coordinate keys exist iff a box is given; they hold `lat_min,lat_max` and `lon_min,lon_max`. No other key exists. |
| Text.IntRoundTrip | app.py:12 | An integer rendered in decimal reads back as the same integer, so the `limit` parameter carries the limit. |
| Query.YearParamRoundTrip | app.py:17-18 | The `year` value splits at its comma into the range's start and end, in that order. |
| Query.BBoxParamRoundTrip | app.py:21-23 | When coordinates render without commas, each box parameter splits back into its min and max, latitude from `bbox[0]`/`bbox[1]` and longitude from `bbox[2]`/`bbox[3]`. |
| Query.DanausExample | app.py:10-23 | For "Danaus plexippus" with years 2000-2020 and no box, `year` is `"2000,2020"` and neither coordinate filter is sent. |
| Occurrences.Flatten | app.py:28-38 | Walking the results never yields more rows than there are results. |
| Occurrences.Kept | app.py:29-30 | The positions of the kept results, strictly increasing: a position is listed iff that result has both coordinate keys. |
| Occurrences.FlattenProjectsKept | app.py:28-38 | The rows are exactly the projections of the results with both coordinate keys, in their original order, with one row per such result. |
| Occurrences.RowIffCoordinates | app.py:30-34 | A result gives a row iff both coordinate keys are present; presence of the key is what counts, not its value. The row's `lat`/`lon` are the result's own values. |
| Occurrences.FlattenAppend | app.py:29-31 | Results are handled independently and in order: the rows of a concatenation are the rows of each part, concatenated. |
| Occurrences.OptionalKeysNeverExclude | app.py:30-37 | Removing any keys other than the coordinates from results never changes the number of rows. |
| Occurrences.ProjectRoundTrip | app.py:31-38 | A row holds the result's six source fields under new names. Writing it back gives the result restricted to those keys. The one loss is that a missing optional key and a JSON null both read as None. |
| Occurrences.MissingLongitudeExample | app.py:29-38 | Of two results, one lacking `decimalLongitude`, only the other becomes a row. |
| Response.Walk | app.py:28-38 | When the loop finishes, it has at most one row per entry. |
| Response.CollectRows | app.py:28-38 | The append loop, stopping at the first exception, computes the same outcome as `Walk`. |
| Response.FirstFaultStops | app.py:29-38 | Once the entries seen so far have raised, the later entries change nothing. |
| Response.WalkFault | app.py:29-38 | The loop raises iff some entry raises. The exception is that of the first entry that raises. |
| Response.WalkRecords | app.py:29-38 | When every entry is a dict, the loop never raises and returns the flattened rows. |
| Response.WalkTexts | app.py:29-38 | String entries never give rows. They raise an AttributeError at `.get` iff one contains both key names. |
| Response.WalkLists | app.py:29-38 | List entries never give rows: `in` on a list is an element-equality test. They raise an AttributeError at `.get` iff one holds both key names as elements. |
| Response.Rows | app.py:26-29 | A reply that is not a dict raises an AttributeError at `data.get`. A dict without `results` gives no rows. |
| Response.WellFormedReply | app.py:28-38 | A dict whose `results` is a list of dicts gives the flattened rows and raises nothing. |
| Response.CharactersYieldNothing | app.py:29-30 | A string `results` is walked character by character and gives no rows without raising. |
| Response.KeysInAnyOrder | app.py:29-30 | A dict `results` is walked over its keys. The outcome does not depend on the key order. |
| Export.DownloadName | app.py:87 | The file name has no spaces and ends with `_occurrences.csv`. Its prefix is the species name with each space replaced by `_`, at the same length. |
| Export.NameFromDownload | app.py:87 | For a name without underscores, the species name can be recovered from the file name. |
| Export.SpaceAndUnderscoreCollide | app.py:87 | "Danaus plexippus" and "Danaus_plexippus" get the same download name. |
| App.Search | app.py:61-87 | An empty name queries nothing. Any other name sends the built parameters, with the slider's year range always supplied. The page warns iff the reply gives no rows (app.py:67-68) and fails iff the reply raises. Otherwise it takes the results branch (app.py:69) with those rows, and the download name there is `DownloadName(name)`. |
| App.SearchSendsYearFilter | app.py:53-65 | Every query the page sends names the species verbatim and carries the slider's year range. It has coordinate filters iff the box is ticked. |

## Left out

- The HTTP GET and JSON decoding (app.py:25-26) belong to `requests`. The decoded reply is an input. Network errors, HTTP error statuses and undecodable bodies are not modelled.
- The order of the query string is not modelled. `map` is unordered, whereas the Python dict keeps insertion order and `requests` encodes parameters in that order.
- How `requests` encodes the parameter values in the URL (percent-encoding) is not modelled. The model stops at the key/value pairs.
- Float rendering in the bounding-box f-strings is the parameter `show`; its digits are not modelled.
- Building the `DataFrame` and rendering it with `to_csv` (app.py:40, 83) happen inside pandas. The rows are the model's table, so the CSV round trip is not modelled. The UTF-8 encoding of that text is Python's own `str.encode` (app.py:83). It is not modelled either.
- Exceptions raised anywhere in the results branch (app.py:70-105) are not modelled. Examples are `st.map` given a row whose `lat` is None, `.encode('utf-8')` given a lone surrogate that the JSON decoder let through, and `value_counts` on a `country` that is a JSON object or array (unhashable). `App.Search` ends at choosing that branch.
- Streamlit layout, widgets, map, tabs, tables and the download button (app.py:45-105) are UI. The slider bounds (limit 100-2000 in steps of 100, years 1900-2025) and box bounds are not imposed, because `get_gbif_occurrences` does not check them.
- The per-country and per-year summaries (app.py:95-105) are pandas `value_counts`, `to_datetime` and `groupby` calls. They are not modelled.
- `Json` cannot hold two kinds of value that Python's `json` decoder produces. One is a string with a lone surrogate, which a `\ud800` escape decodes to. Dafny's `char` excludes the surrogate range. The other is a NaN or infinite number, which `real` lacks. These come from `NaN`, `Infinity` and `-Infinity`, and also from an overflowing literal such as `1e400`, which Python decodes to `inf` but `JNumber` holds as a finite `real`. Likewise, Python rounds decimal fractions to binary floats, while `JNumber` holds them exactly. No modelled step looks inside these values, so the modelled outcome does not change; replies containing them are still outside the model's input domain.
- The endpoint URL (app.py:9) belongs to the HTTP call and is not modelled.
- JSON numbers are modelled as `real`. Python's int/float distinction does not matter here, because values are copied verbatim.
