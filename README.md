# Painel Insights back end, modelled in Dafny

This project models the core of the Painel Insights API. The API is a small
FastAPI service. It reads three worksheets of one Google spreadsheet: the
insights, the brands (`MARCAS`) and the platforms (`PLATAFORMAS`). It then
serves two endpoints:

- `/api/getMetadata` returns the sorted, de-duplicated brand and platform names.
- `/api/getData` returns the insight rows after optional JSON equality filters
  and a free-text search. The rows are ordered by report date and come with
  the same brand and platform lists.

The modules follow the two source files:

- `SheetsService` (`sheets_service.dfy`): `fetch_all_data`.
  - The worksheet name is turned into a stable dictionary key: `strip`, `lower`,
    then the substring rules `insight`, `marca`, `plataform`, tried in that order.
  - The loop over the fixed worksheet list is an imperative method. A worksheet
    that cannot be read is stored under its raw name with `[]`.
  - A failed client or spreadsheet gives `{}`.
  - The `lru_cache(maxsize=1)` memo is a class with an optional memo field.
    The spreadsheet service is not called; its answer is an `Upstream` value
    handed in.
- `Insights` (`insights.dfy`): `apply_filters_and_search`.
  - The data frame is a set of column names plus rows. Each row maps every
    column to a `Cell`: a sheet value, pandas' NaN (a key other rows have), None
    (a back-filled column), a parsed Timestamp, or NaT.
  - The pipeline is a method built from the same stages as the source: build
    and back-fill, parse dates, the filter loop, search, sort, and convert to
    records.
  - Each stage is proved against specification functions (`Normalized`,
    `AfterFilters`, `Kept`, `SortByDate`, `ToRecord`), and the properties are
    lemmas about those functions.
- `Dates` (`dates.dfy`): `pd.to_datetime(format='%d/%m/%Y', errors='coerce')`
  and the `strftime('%Y-%m-%dT%H:%M:%SZ')` output.
  - Day and month are one or two ASCII digits; a day may also be a space and a digit.
    The year has exactly four ASCII digits.
  - The date must exist in the calendar, with Gregorian leap years.
  - It must lie inside the range of a nanosecond Timestamp,
    1677-09-22 to 2262-04-11. Anything else is NaT.
- `Metadata` (`metadata.dfy`): the `all_data.get(k) or all_data.get(K) or []`
  lookups and `sorted({r.get(col) for r in rows if r.get(col)})`.
- `Api` (`api.dfy`): the two handlers and their error-to-response mapping.
- `Text`, `Seqs`, `Wrappers`: helpers with Python's meaning.
  - `Text`: `str.lower`, `str.strip`, substring `in`, string `<`, `split`,
    zero-padded numbers.
  - `Seqs`: boolean masking and element-wise conversion of a column.
  - `Wrappers`: `Option` and `Result`.

The pandas behaviour modelled is that of pandas 2.x: nanosecond Timestamps,
and `astype(str)` printing missing cells as `nan` and `None`. pandas 3 infers
the date resolution and uses a string dtype, and changes both.

A failed fetch is cached too: `lru_cache` memoises the `{}` returned on
failure like any other value, so the server keeps answering with empty data
until it restarts (`LruCachedFetch.FetchAllData`, `MemoKeepsFirstResult`).

Three behaviours of the code as written are modelled deliberately:

- An empty frame with a search term raises inside pandas. That happens when
  the filters remove every row. `get_insights` then answers with the all-empty
  body, and the brand and platform lists are dropped as well.
- Because the search looks at printed cells, a missing value matches the terms
  `none` and `nan`, and an unparsed date matches `nat`.
- A truthy string, number or boolean as the value for a column the frame has
  makes `isin` raise; for a key that is not a column it is skipped. A truthy
  filter document that is not an object makes `filters.items()` raise. Either
  way the answer is the all-empty body.

## Model

| member | source | states |
|---|---|---|
| SheetsService.InsightsWorksheetKey | services/sheets_service.py:48-50 | the worksheet `BANCO_INSIGHTS` is stored under `insights` |
| SheetsService.MarcasWorksheetKey | services/sheets_service.py:48-52 | the worksheet `MARCAS` is stored under `marcas` (no `insight` in it) |
| SheetsService.PlataformasWorksheetKey | services/sheets_service.py:48-54 | the worksheet `PLATAFORMAS` is stored under `plataformas` (neither earlier rule matches) |
| SheetsService.WorksheetKeyIdempotent | services/sheets_service.py:48-54 | normalising a key a second time gives the same key, so the keys are stable |
| SheetsService.AssembleWorksheets | services/sheets_service.py:40-64 | the loop builds exactly `Assembled(names, worksheets)`: per name, in order, the stable key with the records when read, the raw name with `[]` when not |
| SheetsService.AssembledKeys | services/sheets_service.py:42-62 | the dictionary's keys are exactly one slot per listed worksheet; nothing else is added |
| SheetsService.AssembledLastWins | services/sheets_service.py:42-62 | a worksheet's slot holds its records (or `[]`) unless a later worksheet lands on the same key |
| SheetsService.FixedWorksheetSlots | services/sheets_service.py:42-62 | for the fixed list the result is exactly three entries: `insights`/`marcas`/`plataformas` for read worksheets, the raw names with `[]` for failed ones |
| SheetsService.FetchFromUpstream | services/sheets_service.py:31-71 | `{}` when no client can be built or the spreadsheet cannot be opened, the assembled dictionary otherwise |
| SheetsService.LruCachedFetch.FetchAllData | services/sheets_service.py:30-31 | the first call runs the body and stores its result, `{}` included; later calls return the stored value and do not run the body |
| SheetsService.MemoKeepsFirstResult | services/sheets_service.py:30-31 | two calls in one process return the first call's result, whatever the spreadsheet answers the second time |
| Dates.ExampleReportDate | app.py:38-40 | `"15/03/2024"` parses as 15 March 2024 |
| Dates.ExampleSingleDigits | app.py:38-40 | `"5/3/2024"` parses as well: `%d` and `%m` accept one digit |
| Dates.ExampleImpossibleDay | app.py:38-40 | `"31/02/2024"` is NaT |
| Dates.ExampleLeapDay | app.py:38-40 | 29 February 2024 exists |
| Dates.ExampleLeapCentury | app.py:38-40 | 29 February 2000 exists (divisible by 400) |
| Dates.ExampleCommonYear | app.py:38-40 | 29 February 2023 is NaT |
| Dates.ExampleCommonCentury | app.py:38-40 | 29 February 1900 is NaT (century, not divisible by 400) |
| Dates.ExampleTooLate | app.py:38-40 | a valid date after 2262-04-11 is NaT (outside the Timestamp range) |
| Dates.ExampleTooEarly | app.py:38-40 | a valid date before 1677-09-22 is NaT |
| Dates.ExampleOtherSpellings | app.py:38-40 | ISO text and the empty string are NaT |
| Dates.ParseThreeFields | app.py:38-40 | text with exactly two slashes parses as its day, month and year fields |
| Dates.ParseDayMonthYear | app.py:38-40 | every date a Timestamp can hold, written `dd/mm/yyyy`, parses back to itself |
| Dates.ExampleEmittedDate | app.py:58 | 15 March 2024 is emitted as `"2024-03-15T00:00:00Z"` |
| Dates.ParseIsoText | app.py:58 | the emitted ISO text reads back as the same date, so the text carries the date exactly |
| Dates.RepresentableIsEmittable | app.py:58 | every parsed date has a four-digit year, so the output format applies |
| Dates.NotAfterTotal | app.py:56 | any two dates are ordered one way or the other |
| Dates.NotAfterTransitive | app.py:56 | the date order is transitive |
| Text.BelowIrreflexive | app.py:73 | no string sorts strictly before itself |
| Text.BelowTransitive | app.py:73 | Python's string order is transitive |
| Text.BelowTotal | app.py:73 | two different strings are strictly ordered one way or the other |
| Seqs.Where | app.py:47 | masking keeps exactly the rows that pass, each as often as in the input, and never adds rows |
| Seqs.WhereWhere | app.py:44-54 | masking twice equals masking once with both conditions |
| Insights.BackFillStep | app.py:34-36 | assigning `None` to a column no row has extends every row by that column with None |
| Insights.BuildFrame | app.py:32-40 | the frame after `DataFrame(data)`, the back-fill loop and the date parse is `Normalized(data)` |
| Insights.NormalizedShape | app.py:32-40 | the frame has one row per input row; every row has all input keys plus the six required columns, and a parsed report date or NaT |
| Insights.RecordOfInputRow | app.py:32-60 | one row's record: sheet values pass through, missing cells are null, the date is ISO text when it parsed and null otherwise |
| Insights.FilterRows | app.py:44-47 | raises exactly when the filters are a truthy non-object or have a truthy scalar for a known column; otherwise keeps the rows passing every narrowing entry |
| Insights.FilterEntries | app.py:45-47 | the loop over the entries masks once per entry with a non-empty list for a known column, and raises at a truthy scalar |
| Insights.SearchRows | app.py:49-54 | an active term over a frame the filters emptied raises; otherwise the rows whose required columns, printed and lower-cased, contain the lower-cased term |
| Insights.Kept | app.py:44-54 | a row survives iff it passes every narrowing filter and matches the search; the survivors are a sub-multiset of the frame |
| Insights.SortByDate | app.py:56 | the result is a permutation of the rows, ascending by date, with the dateless rows last |
| Insights.OrderedRecords | app.py:56-58 | converting date-ordered rows gives records whose ISO dates are in the same order |
| Insights.SortedRecords | app.py:56-62 | the records are a permutation of the kept rows' records, ordered by date, each with every column |
| Insights.ApplyFiltersAndSearch | app.py:26-64 | empty input gives `[]`; raises exactly when `PipelineFails`; otherwise the records of `Kept`, in some order, ascending by date with nulls last, all with the same keys (input keys plus the required columns) |
| Insights.KeptSubMultiset | app.py:44-54 | filtering and search only remove rows: the records are a sub-multiset of all input records |
| Insights.FilterOrderIrrelevant | app.py:44-47 | reordering the filter entries changes neither the kept rows nor whether the pipeline raises |
| Insights.InertFiltersIgnored | app.py:44-47 | entries that are empty or name an unknown column act as no filter at all |
| Insights.SearchIgnoresCase | app.py:49-54 | two terms with the same lower-case form select the same rows |
| Insights.BlankSearchKeepsFiltered | app.py:49-54 | no term, or an empty one, keeps every filtered row and cannot make the pipeline raise |
| Insights.AbsentColumnMatchesNone | app.py:49-54 | a required column no input row has prints as `None`, so the term `NONE` matches every row |
| Insights.UnparsedDateMatchesNat | app.py:49-54 | a missing or unparsable date prints as `NaT`, so the term `nat` matches its row |
| Insights.SheetValueMatches | app.py:49-54 | a row whose sheet value in any searched column other than the date contains the term, ignoring case, survives the search |
| Insights.ExampleMonthSearched | app.py:49-54 | a row whose only value is `mar` in the month column `Mês` is kept by the search `mar` |
| Insights.ExampleSearchIgnoresCase | app.py:49-54 | a row with brand `Budweiser` matches `BUDWEISER` and `weis` |
| Insights.ExampleRecordDate | app.py:38-60 | a row dated `"15/03/2024"` leaves with `"2024-03-15T00:00:00Z"` |
| Insights.ExampleRecordImpossibleDate | app.py:38-60 | a row dated `"31/02/2024"` leaves with a null date |
| Metadata.Lookup | app.py:70-71 | the rows under the normalised key when that list is non-empty, else the rows under the raw name, else `[]` |
| Metadata.LookupInsights | app.py:87 | after any fetch, the insights lookup yields exactly the records the insights worksheet gave (`[]` when it failed) |
| Metadata.LookupListSheet | app.py:70-71 | after any fetch, the brands lookup and the platforms lookup each yield exactly the records of their worksheet |
| Metadata.InsertSorted | app.py:73 | adding a value to an ascending list of distinct values keeps it ascending and distinct, with that value added |
| Metadata.DistinctValues | app.py:73-74 | strictly ascending; a string is listed iff it is a non-empty value of the column in some row |
| Metadata.IncreasingUnique | app.py:73-74 | an ascending, duplicate-free list is determined by its elements, so the projection is the one sorted set |
| Metadata.DistinctValuesBySet | app.py:73-74 | rows with the same set of values give the same list |
| Metadata.ListsFrom | app.py:70-76 | both lists are strictly ascending and hold exactly the non-empty brand and platform values of the looked-up rows |
| Metadata.ListsAfterFetch | app.py:69-74 | after any fetch, the lists hold exactly the values of the brands and platforms worksheets |
| Api.GetInsights | app.py:85-112 | malformed filter JSON gives 400; a raising pipeline gives the all-empty body; otherwise the pipeline's records and the same lists as `/api/getMetadata`, whatever the filters and search |
| Api.GetInsightsAfterFailedFetch | app.py:86-106 | after a failed fetch, `/api/getData` answers with empty insights and lists, not an error |
| Api.GetMetadataEndpoint | app.py:66-76 | `/api/getMetadata` answers with the lists of the memoised dictionary, fetching it on the first request |
| Api.GetDataEndpoint | app.py:80-112 | `/api/getData` on the memoised dictionary: 400 for malformed filters, the all-empty body when the pipeline raises, otherwise the kept records in date order with the metadata lists |
| Api.EndpointsAgree | app.py:86-94 | after the metadata request, a data request reports the same brands and platforms unless it answers with the all-empty body |

## Left out

- FastAPI routing, CORS, the `uvicorn` start-up, `print` and `df.info()`: plumbing and debug output with no effect on results.
- gspread authentication, opening the spreadsheet and reading worksheets: these are I/O. Their outcome is the `Upstream` parameter: no client, spreadsheet not opened, or per worksheet records / not found / failed.
- The 500 answer of `/api/getMetadata`: with text cells nothing in its body raises. The source's 500 path needs cells that cannot be compared, which the model does not have (next line).
- Non-text cells: `get_all_records` can return numbers. Every cell is modelled as text, so mixed-type sorting errors and numeric `isin` matches are not modelled.
- Insights.ApplyFiltersAndSearch: treats the search term as plain text. pandas `str.contains` reads it as a regular expression, so terms with regex metacharacters can match differently or raise.
- Insights.ApplyFiltersAndSearch: promises a permutation of the kept records in date order, not which order rows with equal dates take. `sort_values` does not promise a stable order.
- Insights.Accepts: only lists of strings and scalars are modelled as filter values. `isin` with a list of non-strings or a JSON object is not. On the date column, pandas would convert string values to dates before comparing; the model treats them as never matching.
- Insights.FilterJson: a JSON object with a repeated key keeps only the last value when decoded. The model starts from the decoded entries.
- Dates.ParseReportDate: accepts ASCII digits only. Python's `re` `\d` and `int()` also accept other Unicode decimal digits (Arabic-Indic, for instance), which pandas would parse.
- Text.Lower: lower-cases ASCII and Latin-1 capitals only. Python's full Unicode case mapping is not modelled.
- Api.DataResponse: records are maps, so JSON key order in the response body is not modelled.
- SheetsService.LruCachedFetch: concurrent first requests are not modelled; `lru_cache` may run the body more than once when calls race.
