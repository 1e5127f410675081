# mindat-location enrichment, modelled in Dafny

The program reads a CSV file of locality records. For each row it takes the
free-text locality from a configured column and queries the Mindat localities
endpoint with that text. It writes one record per row until a row too short
for the location column raises IndexError and stops the run. A record holds
the row's id (its first cell) and the locality text; an empty cell is not
queried and gets a placeholder text instead. The record also holds the first
result's `id`, `txt`, `latitude` and `longitude` when the first element of
the response's `results` is an object.

This project models the direct-lookup pipeline in `main.py`:

- `values.dfy` (module `PyValues`): the Python values the code handles. This
  covers a decoded JSON document (`Json`), the exceptions the code can raise,
  and the built-ins it applies to decoded values: truthiness, `dict.get`,
  `len` and `[0]`. It also covers indexing the CSV row, where a negative
  index counts from the end.
- `locality.dfy` (module `Locality`): `format_result` as `FormatResult` and
  `handle_line` as `HandleLine`. The HTTP request and JSON decoding are a
  `lookup` parameter of type `Request -> Reply`. It is an oracle that answers
  a request (URL plus `Authorization` header) with a decoded document or a
  failure. Python exceptions are `Outcome.Raised` values. This is how the model
  shows which failures `handle_line` catches and which one escapes it.
- `pipeline.dfy` (module `Pipeline`): the row loop of `process_csv` as the
  method `ProcessCsv`, and the `DictWriter` projection onto the six output
  field names as `Project`. `ProcessCsv` takes one lookup per row, because
  each row makes its own HTTP call.

Facts the model establishes:

- Every row before the first row whose location column is out of range
  yields exactly one record, in input order; that row stops the run. The
  first row is not skipped.
- Only the first element of `results` is read.
- An empty location cell yields a placeholder record with no lookup.
- Every failure inside the `try` yields the record with only `id` and
  `original_locality`. That includes a network failure, a body that is not
  JSON, and a truthy response with no `results` key. In the last case
  `len(None)` raises `TypeError`.
- The one exception that escapes is the `IndexError` from
  `row[location_column]`, which sits outside the `try`. It stops the run, and
  the header and the lines already written remain.

The loop at `main.py:81-82` does not skip a header row: the first input row
is enriched and written like every other row.

## Model

| member | source | states |
|---|---|---|
| `PyValues.PyIndex` | main.py:48 | `row[location_column]` returns a cell of the row exactly when the index is in Python's range `-len(row) <= i < len(row)`, a negative index counting from the end; otherwise IndexError |
| `PyValues.Truthy` | main.py:31 | Python's `bool()` of a decoded value: None, false, a zero number, "", [] and {} are falsy, everything else is truthy |
| `PyValues.CallGet` | main.py:32-35 | `.get(key)` works only on a dict and gives None for an absent key; on any other value it raises AttributeError |
| `PyValues.Len` | main.py:31 | `len` is defined only for strings, lists and dicts (TypeError for None, numbers and booleans), and is zero exactly when the value is falsy |
| `PyValues.Subscript0` | main.py:32-35 | `results[0]` on a non-empty value is the first list element, the string's first character as a one-character string, or KeyError for a dict |
| `Locality.Unmatched` | main.py:28-30 | the base record has exactly the keys `id` and `original_locality`, holding the two given strings |
| `Locality.FormatResult` | main.py:19-37 | `id` and `original_locality` are always the first two arguments. A falsy response or empty `results` gives exactly those two keys. A `results` list starting with an object gives all six keys, with the four `mindat_*` values read from that first object. Any other truthy response raises |
| `Locality.FirstResultWins` | main.py:31-35 | for every response whose `results` is a non-empty list, the outcome (record or exception) depends only on `results[0]`: later results and other response keys do not change it |
| `Locality.MissingKeyBecomesNone` | main.py:33 | a `txt` key missing from the first result still gives a `mindat_text` key, with value None |
| `Locality.MissingResultsRaises` | main.py:31 | a truthy response without `results`, or with `results` null, raises TypeError (`len(None)`) |
| `Locality.QueryUrl` | main.py:57 | the URL is the fixed endpoint prefix followed by the raw location text, with no encoding |
| `Locality.QueryFor` | main.py:57-58 | the request is `QueryUrl(location)`, from which the location is recovered unchanged, with the `Authorization` header "Token " followed by the token |
| `Locality.QueryUrlInjective` | main.py:57 | distinct locations give distinct query URLs, so the location can be recovered from the URL |
| `Locality.HandleLine` | main.py:40-63 | raises (IndexError) exactly when the location column is out of range for the row. Otherwise it returns a record, never None, as the doc comment promises. The record's `id` is `row[0]`, and it has either the two base keys or all six |
| `Locality.EmptyLocationSkipsLookup` | main.py:48-50 | an empty location cell gives `id = row[0]` and the placeholder text "Unable to retrieve verbatim location" with no Mindat keys, and the result does not depend on the lookup |
| `Locality.LookupOnlyForQuery` | main.py:56-60 | for a non-empty location, the result depends on the lookup only through its answer to the query for that location |
| `Locality.SuccessfulLookup` | main.py:56-60 | a decoded response that `format_result` accepts gives exactly `format_result(row[0], location, response)` |
| `Locality.FailedLookupDegrades` | main.py:56-63 | a failed lookup or a response that `format_result` rejects gives the degraded record: `id = row[0]`, `original_locality = location`, no Mindat keys |
| `Locality.MissingResultsDegrades` | main.py:31 | a truthy response lacking `results` raises inside `format_result`, and `handle_line` catches it, so the row is degraded |
| `Pipeline.Project` | main.py:75-79 | the writer emits six cells in the fixed field order. A cell is filled exactly when the record has that key, and holds the key's value |
| `Pipeline.ExtraKeysIgnored` | main.py:79 | keys outside the six field names never affect the written cells (`extrasaction='ignore'`) |
| `Pipeline.UnmatchedCells` | main.py:76-79 | a record without a match is written as its id, its locality and four empty cells |
| `Pipeline.MatchedCells` | main.py:31-35 | a response with a first result is written with that result's id, text, latitude and longitude in the four Mindat cells |
| `Pipeline.WrittenLine` | main.py:82 | a row gives a record line of six cells whose first cell is `row[0]`, and raises IndexError exactly when the location column is out of range |
| `Pipeline.EmptyLocationLine` | main.py:48-50 | a row with an empty location cell is written as its id, the placeholder text and four empty cells, whatever the lookup |
| `Pipeline.GrubeClaraLine` | main.py:48-60 | worked row: a lookup that answers the Grube Clara query with one result (id 42, latitude 48.3, longitude 8.2) gives a line carrying exactly those values |
| `Pipeline.ProcessCsv` | main.py:72-82 | the output is the header, then one line per row in input order with the first row included, each row written from the service's answer to its own call. The run completes with `len(rows) + 1` lines exactly when every row has the location column in range. Otherwise it stops at the first short row, with that row's IndexError and the lines already written |

## Left out

- The HTTP call and JSON decoding (`main.py:57-59`) are network I/O and a foreign parser. The model replaces them with the `lookup` oracle, which returns a decoded document or a failure.
- Percent-encoding that the HTTP library may apply to the URL is not modelled. The oracle receives the URL as the code builds it.
- The model does not round JSON numbers to floats. Numbers stay decimals `mantissa * 10^exponent` and are passed through untouched. Only their zero-ness (truthiness) is ever read, and for a top-level response that does not change the output either way.
- `NaN`, `Infinity` and `-Infinity`, which Python's `json.loads` accepts, have no `Json` value. A coordinate holding one would be passed through and written like any other number, and no record shape depends on it.
- HandleLine: the lookup always answers. The HTTP call at `main.py:57-58` has no timeout and can block forever; the model does not capture a row that never finishes.
- ProcessCsv: the service is a separate function per row (`lookups[i]`), so repeated or transient answers are allowed, but each row's single call is still modelled as answering.
- Logging (`main.py:9-16`, 36, 52, 54, 62) is a diagnostic side effect only.
- Argument parsing (`main.py:85-108`) is library plumbing. `--country_column` and `--id_column` are never read by the pipeline.
- File opening and CSV tokenising and quoting (`main.py:72-80`) are not modelled. Rows are given already split into cells. Output lines are the values handed to the writer, before they are turned into text.
- The language-model-assisted normalisation variant and its retry loop are not part of this model. `main.py` does not contain them.
