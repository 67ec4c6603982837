# COVID-19 data viewer: the aggregation core

This is a Dafny model of the part of the COVID-19 data viewer that turns the European Centre for
Disease Prevention and Control's case-distribution feed into the viewer's world dataset.

The feed is a list of rows, already split on commas. Each row carries:

- a date;
- the day's new cases and new deaths;
- a country name;
- a secondary and a primary country code;
- a population.

`World_Data` does the following with the rows:

- It extracts six important fields from every row: name, code, date, new cases, new deaths and population.
- It files each record under the row's primary code. Each record goes at the front of its country's list.
- It fills a name→code table and a code→name table. A later row overwrites an earlier one.
- It extends every record in place with six computed fields:
  - cumulative cases and cumulative deaths;
  - the death rate;
  - the infection rate;
  - cases per million;
  - deaths per million.
- It computes the *comparable countries*: the countries whose set of report dates equals the reference country's ("USA").

The query surface is modelled too:

- the column lookups;
- the per-country column projection;
- the two lookup tables;
- the guard that refuses to compare two countries unless both are comparable.

Modules:

- `Py`:
  - the Python exceptions the code can raise;
  - `Result`/`Option`/`Outcome`;
  - Python list indexing, including negative indices;
  - `list.index`.
- `Columns`: the column constants, the header list, the labels, the menu's graph types, `get_column_num` and `get_label`.
- `Feed`:
  - `divide_safe`;
  - `string_to_int` together with the integer syntax that `int()` accepts;
  - the name normalisation;
  - `get_important_data`.
- `Series`: the running-total scan of one country's list.
  - It is specified by the function `Accumulated`.
  - The method `Accumulate` implements it with the source's two accumulators and is proved equal to it.
- `World`:
  - The grouping loop is specified by prefix-recursive functions (`Groups`, `KeyOrder`, `Codes`, `Names`). The methods `GroupRows`/`FileRow` implement the loop and are proved equal to those functions.
  - The scan over all countries is specified by `AccumulatedMap` and implemented by `AccumulateAll`.
  - The class `WorldData` has the source's dictionaries `world_data`, `country_codes` and `country_names` and its list `comparable_countries`, and an invariant `Valid()`. Its constructor runs both loops.
  - The source's `columns` field holds a `Columns` instance whose members are all static. The model uses the `Columns` module directly instead of storing it.
  - `WorldData` has one field the source does not: `countries`, the order in which keys entered `world_data`. A Python dict keeps that order implicitly, and the comparable-countries list follows it, so the model stores it explicitly.
  - `Load` models the constructor's exceptions.

A record is a `seq<Cell>`, where a `Cell` is a text field, an integer or a ratio. A record has six cells after extraction and twelve after the scan. Ratios are exact reals.

Three points of the code's behaviour are easy to get wrong, and the model states them as the code has them:

- **No sort.** The code does not sort a country's rows by date. Each row is put at the front of its country's list, so a list is the reverse of the feed order (`GroupsReverseSelect`). It is chronological only because the feed lists each country newest first (`NewestFirstExample`).
- **No code fallback in the key.** Rows are grouped under the primary code `row[8]` with no fallback. The fallback to `row[7]` applies only to the code stored inside the record (`StoredCodeIsPrimary`).
- **A missing reference country raises.** A non-empty feed without a "USA" key raises `KeyError` when the reference country is looked up (`ComparableOf`, `Load`). With no rows at all, nothing is looked up and the comparable list is empty.

## Model

| member | source | states |
|---|---|---|
| Py.Item | covid19_data_viewer/__main__.py:153 | `row[c]` succeeds exactly for `-len <= c < len`; a negative index counts from the end |
| Py.IndexOf | covid19_data_viewer/__main__.py:57 | `list.index`: succeeds iff the value occurs, returns its first position, otherwise `ValueError` |
| Columns.GetColumnNum | covid19_data_viewer/__main__.py:40-57 | succeeds iff the value is a column header; the position holds that header; `ValueError` otherwise |
| Columns.GetLabel | covid19_data_viewer/__main__.py:22-29 | a label exists exactly for the six computed columns 6..11; `KeyError` for any other column |
| Columns.ColumnNumIsIdentity | covid19_data_viewer/__main__.py:8-20 | `get_column_num(c) == c` for every column 0..11; `ValueError` for every other value |
| Columns.ColumnTypesAreLabelledColumns | covid19_data_viewer/__main__.py:31-38 | the graph types are exactly "1".."6"; they map one-to-one onto exactly columns 6..11; each of those has a label |
| Feed.DivideSafe | covid19_data_viewer/__main__.py:182-183 | a zero denominator gives 0; otherwise the result times the denominator is the numerator |
| Feed.ParseInt | covid19_data_viewer/__main__.py:186 | `int(s)` succeeds exactly on a non-empty string of digits after an optional sign; the digits read as their decimal value, negated after `-` |
| Feed.ParseShowInt | covid19_data_viewer/__main__.py:186 | parsing the decimal spelling of any integer gives that integer back |
| Feed.StringToInt | covid19_data_viewer/__main__.py:185-186 | the empty string is 0; anything else succeeds exactly when `int()` does, with the value `int()` reads; a failure is `ValueError` |
| Feed.StringToIntOfShowInt | covid19_data_viewer/__main__.py:185-186 | every count the feed can print reads back as itself |
| Feed.DisplayName | covid19_data_viewer/__main__.py:72 | same length as the name; each `_` becomes a space; each lower-case ASCII letter becomes its upper-case letter; no underscore or lower-case letter is left; other characters are kept |
| Feed.DisplayNameIdempotent | covid19_data_viewer/__main__.py:72 | normalising an already normalised name changes nothing |
| Feed.ExtractRow | covid19_data_viewer/__main__.py:188-191 | succeeds iff the row has field 9 and fields 4, 5 and 9 parse; the record then has the six-field shape; `IndexError` exactly for a row too short when Python reaches the missing field; otherwise `ValueError` |
| Feed.ExtractedFields | covid19_data_viewer/__main__.py:188-191 | for every row that extracts, the record is [field 6, resolved code, field 0, and the integers read from fields 4, 5 and 9] |
| Feed.ExtractFeedRow | covid19_data_viewer/__main__.py:188-191 | for a feed row of any width ≥ 10 and any day, month, year or trailing fields, extraction returns exactly [name, primary code or else secondary code, date, cases, deaths, population] |
| Feed.ExtractEmptyCounts | covid19_data_viewer/__main__.py:185-191 | empty count and population fields read as 0 |
| Feed.StoredCodeIsPrimary | covid19_data_viewer/__main__.py:190 | the stored code equals `row[8]` iff `row[8]` is non-empty or both codes are empty |
| Series.Metrics | covid19_data_viewer/__main__.py:85-90 | the six appended cells: both totals as integers, followed by four ratios |
| Series.MetricsMeaning | covid19_data_viewer/__main__.py:87-90 | death rate × cases = deaths × 100; infection rate × population = cases × 100; per-million × population = total × 10^6; each ratio is 0 when its denominator is 0 |
| Series.Accumulated | covid19_data_viewer/__main__.py:81-106 | the scan keeps the number of rows |
| Series.SumsStep | covid19_data_viewer/__main__.py:100-101 | each running sum is the previous sum plus the row's own count |
| Series.AccumulatedRow | covid19_data_viewer/__main__.py:85-90 | every scanned row has twelve fields of the right kinds; it keeps its six extracted fields in front; it ends with the metrics of its own totals and population |
| Series.TotalsRecurrence | covid19_data_viewer/__main__.py:83-86 | row 0's totals are its own counts; row i's totals are row i-1's totals plus row i's counts |
| Series.TotalsMonotone | covid19_data_viewer/__main__.py:92-101 | with non-negative counts, cumulative cases and deaths never decrease along a series |
| Series.ZeroPopulation | covid19_data_viewer/__main__.py:104-106 | population 0 gives infection rate and both per-million figures equal to 0 |
| Series.AccumulatedIsSeries | covid19_data_viewer/__main__.py:81-106 | the scan's output is a valid series whose extracted part is its input |
| Series.Accumulate | covid19_data_viewer/__main__.py:82-106 | the source's loop with two accumulators computes exactly `Accumulated` |
| World.Groups | covid19_data_viewer/__main__.py:71-79 | every country's list is non-empty and holds extracted records |
| World.GroupsReverseSelect | covid19_data_viewer/__main__.py:71-79 | a key has a list iff some row carries it; the list is the reverse of that key's rows in feed order; a key no row carries selects nothing |
| World.NewestFirstExample | covid19_data_viewer/__main__.py:71-101 | two rows of one country, given newest first, end up oldest first with totals c_old and c_old + c_new |
| World.KeyOrderIsKeys | covid19_data_viewer/__main__.py:77-78 | the dictionary's key order lists each grouping key exactly once |
| World.LookupTablesAgree | covid19_data_viewer/__main__.py:71-75 | code→name is keyed by exactly the grouping keys; every stored code is a key; every stored name can be looked up in name→code |
| World.NamesLastWins | covid19_data_viewer/__main__.py:75 | a code's name is the display name from the last row with that code |
| World.CodesLastWins | covid19_data_viewer/__main__.py:74 | a name's code is the key of the last row with that display name |
| World.AccumulatedMap | covid19_data_viewer/__main__.py:81-82 | the scan over all countries keeps the set of countries |
| World.AccumulatedMapIsSeries | covid19_data_viewer/__main__.py:81-106 | after the scan, every country's list is a valid series |
| World.WorldOf | covid19_data_viewer/__main__.py:71-106 | the dataset has exactly the grouping keys as countries |
| World.SameDates | covid19_data_viewer/__main__.py:109 | keeps exactly the listed countries whose date set equals the given one |
| World.ComparableOf | covid19_data_viewer/__main__.py:109 | `KeyError` iff there is a country but no "USA" key; otherwise exactly the countries whose date set equals USA's |
| World.Column | covid19_data_viewer/__main__.py:153 | succeeds iff every row has field c; the result is index-aligned with the rows; `IndexError` otherwise |
| World.SeriesColumn | covid19_data_viewer/__main__.py:151-153 | on a series, a projection succeeds exactly for c in -12..11; the date column holds exactly the series' dates |
| World.FirstBadRow | covid19_data_viewer/__main__.py:71-79 | none iff every row extracts; otherwise a row that fails, with every earlier row extracting |
| World.LoadError | covid19_data_viewer/__main__.py:64-109 | no error iff every row extracts and a non-empty feed has a "USA" key |
| World.GroupStep | covid19_data_viewer/__main__.py:71-79 | one more row changes the four grouping results exactly as one loop iteration does |
| World.FileRow | covid19_data_viewer/__main__.py:72-79 | one iteration: both table entries are overwritten; a new key gets an empty list and a place in the key order; the record goes to the front of its list |
| World.GroupRows | covid19_data_viewer/__main__.py:71-79 | the grouping loop yields exactly `Groups`, `KeyOrder`, `Codes` and `Names` of the feed |
| World.AccumulateAll | covid19_data_viewer/__main__.py:81-106 | scanning the countries in any order yields exactly `AccumulatedMap` |
| World.WorldData.constructor | covid19_data_viewer/__main__.py:64-109 | builds a valid dataset equal to the specification functions of the feed, with the comparable countries |
| World.WorldData.GetCountryCodeByName | covid19_data_viewer/__main__.py:145-146 | succeeds iff the name is in the table; `KeyError` otherwise; on a valid dataset the code is one of its countries |
| World.WorldData.GetCountryNameByCode | covid19_data_viewer/__main__.py:148-149 | on a valid dataset, succeeds exactly for its countries; `KeyError` otherwise; the name returned can be looked up again |
| World.WorldData.GetColumnData | covid19_data_viewer/__main__.py:151-158 | `KeyError` for an unknown country; the result is index-aligned with the country's rows; on a valid dataset it succeeds exactly for columns -12..11; the date column holds the country's dates |
| World.WorldData.CheckComparison | covid19_data_viewer/__main__.py:223-225 | passes iff both codes are comparable, otherwise raises "Cannot compare the selected countries"; when it passes, both countries and USA share one date set |
| World.WorldData.ReferenceIsComparable | covid19_data_viewer/__main__.py:109 | "USA" is comparable whenever it is a country |
| World.Load | covid19_data_viewer/__main__.py:64-109 | raises exactly the error `LoadError` names; otherwise a fresh, valid dataset equal to the specification functions |

## Left out

- The HTTP download of the feed, its decoding and its splitting into rows (`main`): these are I/O. The model starts from a sequence of already split rows.
- Plotting (`plot_graph`, `plot_two_graphs`, `add_commas`): these are calls into matplotlib.
- Starting the plot process in `start_graph_process` and `start_comparison_graph_process`: this is concurrency. Only the guard of the comparison is modelled.
- The interactive menu and the input prompts (`main`, `get_country_code_input`, `get_graph_type_input`): these are console I/O.
- The print helpers (`print_country`, `print_dict`, `print_country_names_and_codes`, `print_comparable_countries`) and the unused `get_last_index`: these are output only.
- Floating point: ratios are exact reals, so rounding of the float divisions is not modelled.
- Date parsing: dates are opaque text cells. The `strptime` call inside `get_column_data` is not modelled, and neither is anything that follows from it:
  - `ValueError` on a malformed date, including during the comparable-countries computation;
  - two spellings of one date counting as equal.
- World.WorldData.GetColumnData: returns the date column as the feed's text, not as parsed dates.
- Feed.ParseInt: models `int()` only on ASCII digits with an optional sign. It does not accept surrounding whitespace, `_` separators or non-ASCII digits, which Python's `int()` does.
- Feed.DisplayName: upper-cases ASCII letters only, through `Feed.Upper`. Python's `str.upper` also maps other letters.
- World.AccumulateAll: visits countries in an arbitrary order rather than in dictionary order. Each country's series depends only on its own list, and the result is proved equal for every order.
- In-place updates are not modelled:
  - the scan appends the new fields to the record lists held in the dictionary, and the model rebuilds those lists as values;
  - a half-built dataset is not modelled: when a row raises, the constructor throws the object away, and `Load` returns only the error.
- Each of the scan's field lookups goes through `get_column_num`. The model reads the field directly, which `Columns.ColumnNumIsIdentity` justifies.
