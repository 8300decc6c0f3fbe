# Weather CSV comparison: extraction and validation

`compare_weather_csv.py` compares the daily highs and lows of two weather
stations. It reads two CSV files and takes each file's header row. It looks up
the columns `DATE`, `TMAX`, `TMIN` and `NAME` by label. It turns every data row
into a date, a high and a low held in three parallel lists per file. It refuses
two files whose lists of highs are equal ("Duplicate data found") and only then
draws the chart.

This project models the part of that script that decides what gets plotted:

- `WeatherData.__init__`:
  - the header is taken off each reader;
  - the six lists start empty.
- `plot_data` up to the duplicate check:
  - the column lookup and its one caught error;
  - the row loops with their caught and uncaught errors;
  - the comparison of `highs_1` with `highs_2`.

The model is split into modules:

- `Wrappers`: `Option` and `Result`.
- `Decimal`: ASCII digit strings and their values.
- `Parsers`: the two conversions the loops use.
  - `int()` on a temperature cell, as `ParseInt`.
  - `datetime.strptime(cell, "%Y-%m-%d")` on a date cell, as `ParseDate`.
- `WeatherCsv`: the script itself.
  - Header lookup (`IndexOf`, `LocateColumns`).
  - One loop iteration (`ProcessRow`).
  - The specification of a whole loop (`Scan`, over `Fold` of the per-row results).
  - The state of a run and what `plot_data` does to it (`State`, `PlotStep`).
  - The two classes that carry the state.
    - `WeatherFile` holds one file's header, its unread rows and its three lists. Its methods `ReadRow` and `ReadRows` append to the lists in place.
    - `WeatherData` owns the two files. Its `PlotData` method is proved to do exactly what `PlotStep` describes.
- `WeatherProperties`: lemmas relating whole runs to the rows of the two files.

A run ends with one `Outcome`:

| Outcome | What happens in the script | Caught? |
|---|---|---|
| `NoHeader(file)` | `next()` on an empty file raises `StopIteration` | no |
| `MissingDate` | file 1 has no `DATE` column; the script prints a message and calls `exit()` | yes |
| `MissingColumn(file, column)` | any other missing label raises `ValueError` from `list.index` | no |
| `BadRow(file, row, fault)` | a short row raises `IndexError`, or `strptime` rejects a date | no |
| `Duplicate` | the two lists of highs are equal; the script calls `exit()` | yes |
| `ReadyToPlot` | plotting follows | — |

Where the script's description of its behaviour and its code differ, the model follows the code:

- Missing columns. The description says a missing required column is reported. The code catches only a missing `DATE` in file 1 (`compare_weather_csv.py:42-47`). Every other missing label ends the run with an uncaught `ValueError` (lines 49-56).
- Missing temperature fields. The description says they are skipped with a warning. Only a cell that `int()` rejects is skipped. A row too short to hold the `TMAX` or `TMIN` column raises `IndexError`, which `except ValueError` does not catch. The one exception is a row whose `TMAX` already failed to parse: it is skipped before `TMIN` is read. A row too short to hold `NAME` or `DATE` fails before the `try` is reached.

## Model

| member | source | states |
|---|---|---|
| WeatherCsv.IndexOf | compare_weather_csv.py:43 | `list.index`: no result exactly when the label is absent (the `ValueError`); otherwise the position of its first occurrence |
| WeatherCsv.LocateColumns | compare_weather_csv.py:42-56 | the caught `MissingDate` happens exactly when file 1 lacks `DATE`. Lookup succeeds exactly when both headers hold all four labels, and each index found is that label's first occurrence. Any other failure is a `MissingColumn` naming a file and a label absent from that file's header, and file 2 is reached only when header 1 is complete |
| Parsers.ParseIntAccepts | compare_weather_csv.py:66-67 | `int()` reads a digit string of at most 4300 digits (`MaxStrDigits`) as its decimal value, and a `-` or `+` followed by such digits as that value negated or unchanged |
| Parsers.ParseIntRejects | compare_weather_csv.py:65-68 | `int()` raises on every other cell: whatever parses is a digit string, or a sign followed by one, of 1 to 4300 digits. So cells such as `""`, `"M"`, `"x5"` or `"-"` are the missing data the `try` skips |
| Parsers.ParseIntDomain | compare_weather_csv.py:65-68 | both directions together: a cell parses exactly when it is a digit string of 1 to 4300 digits, optionally preceded by one sign |
| Parsers.ParseIntTooManyDigits | compare_weather_csv.py:65-68 | a digit run longer than 4300 digits, signed or not, raises `ValueError`, so the `try` skips its row |
| Parsers.ParseShowInt | compare_weather_csv.py:66-67 | every integer of at most 4300 digits written in decimal is read back as itself |
| Parsers.ParseInt | compare_weather_csv.py:66-67 | `int()` on one cell, `None` standing for its `ValueError`. It has no contract of its own: `ParseIntAccepts`, `ParseIntRejects`, `ParseIntDomain`, `ParseIntTooManyDigits` and `ParseShowInt` characterise it |
| Parsers.ParseDate | compare_weather_csv.py:61 | `datetime.strptime(cell, "%Y-%m-%d")`, `None` standing for its `ValueError`. It has no contract of its own: `ParseDateValid` and `ParseFormatDate` characterise it |
| Parsers.ParseDateValid | compare_weather_csv.py:61 | `strptime` with `%Y-%m-%d` yields only real calendar dates in years 1..9999 and rejects strings shorter than eight characters |
| Parsers.ParseFormatDate | compare_weather_csv.py:61 | every valid date written as `YYYY-MM-DD` parses back to that date |
| WeatherCsv.ProcessRow | compare_weather_csv.py:60-74 | one iteration of the row loop: it reads NAME, DATE, TMAX and TMIN in the script's order and gives `Accepted`, `Skipped` (the caught `ValueError`) or `Fatal` (an `IndexError` or a bad date). It has no contract of its own: `RowCases` characterises it, and `ScanSkipsBadTemperature` and `ScanKeepsRowOrder` say what it does to a whole file |
| WeatherCsv.RowCases | compare_weather_csv.py:59-74 | a row is accepted exactly when its NAME, DATE, TMAX and TMIN cells exist and all three values parse, and it then contributes exactly those values. A bad date is fatal exactly when the NAME and DATE cells exist. A row is skipped exactly when its date parses and TMAX fails, or when TMIN exists and fails |
| WeatherCsv.Fold | compare_weather_csv.py:59-74 | the loop `for row in reader_n` over the per-row results: it keeps the readings of accepted rows in order and stops at the first fatal row. Its contract bounds the readings by the rows and keeps an abort inside the rows. `FoldAbortsAtFirstFatal`, `FoldKeepsAcceptedRow`, `FoldReadingOrigin`, `FoldIgnoresSkipped` and `FoldAppend` characterise it |
| WeatherCsv.Scan | compare_weather_csv.py:59-74 | one loop yields at most one reading per row, and a raised error points at one of the rows |
| WeatherCsv.FoldAppend | compare_weather_csv.py:59-74 | reading rows in two stretches is reading them at once: it stops where the first stretch raises, and otherwise it keeps both stretches' readings in order |
| WeatherCsv.ExtendTwice | compare_weather_csv.py:72-74 | appending two batches of readings in turn is appending their concatenation |
| WeatherCsv.PlotStep | compare_weather_csv.py:42-95 | the headers never change and the three lists of each file stay equal in length. A header failure changes nothing, and `MissingDate` happens exactly when file 1 lacks `DATE`. The run reaches the duplicate check exactly when both headers are complete and neither file's loop (`Scan`) raises. It ends in `BadRow` exactly when the headers are complete and one of the loops raises. File 1's abort is reported with its row and fault, and file 2's only when file 1 read without raising. A failure in file 1 leaves file 2 untouched. `Duplicate` happens exactly when the duplicate check is reached with equal lists of highs. Reaching the duplicate check means both readers are used up |
| WeatherCsv.WeatherFile.constructor | compare_weather_csv.py:16-31 | the header is the first line, the reader holds exactly the remaining lines, and the three lists are empty |
| WeatherCsv.WeatherFile.ReadRow | compare_weather_csv.py:59-74 | consumes one row and gives that row's `ProcessRow` result. The lists grow by its reading when it is accepted and are otherwise unchanged |
| WeatherCsv.WeatherFile.ReadRows | compare_weather_csv.py:59-74 | the loop raises as `Scan` says and leaves unread exactly the rows after the one that raised. The lists grow by exactly `Scan`'s readings, in order |
| WeatherCsv.WeatherData.constructor | compare_weather_csv.py:9-31 | each header is its file's first line and each reader holds the rest. All six lists are empty and aligned |
| WeatherCsv.WeatherData.PlotData | compare_weather_csv.py:34-95 | the outcome and the new state of both files are exactly those of `PlotStep` on the old state, and the lists stay aligned |
| WeatherCsv.RunOutcome | compare_weather_csv.py:134-142 | the outcome of a whole run on two files' lines: `NoHeader` for an empty file, otherwise `PlotStep` on the opened files. It has no contract of its own: `Run` is proved equal to it, and the `Run…` lemmas of `WeatherProperties` characterise it |
| WeatherCsv.Run | compare_weather_csv.py:134-142 | an empty file stops the run at construction; otherwise the outcome is `plot_data`'s on the freshly opened files |
| WeatherProperties.FoldAbortsAtFirstFatal | compare_weather_csv.py:59-61 | a loop raises exactly when some row is fatal, and it raises at the first such row with that row's fault |
| WeatherProperties.FoldKeepsAcceptedRow | compare_weather_csv.py:72-74 | an accepted row that the loop reaches is kept, at the position equal to the number of readings kept before it |
| WeatherProperties.FoldReadingOrigin | compare_weather_csv.py:72-74 | each reading kept at position k comes from an accepted row that had exactly k readings kept before it |
| WeatherProperties.FoldIgnoresSkipped | compare_weather_csv.py:65-69 | removing a skipped row changes neither the readings nor whether the loop raises |
| WeatherProperties.ScanAbortsAtFirstFatal | compare_weather_csv.py:59-61 | over the rows of a file: the loop raises at the first short row or bad date, with its fault, and never otherwise |
| WeatherProperties.ScanSkipsBadTemperature | compare_weather_csv.py:65-69 | a row whose TMAX or TMIN does not parse adds nothing to any list and does not stop the loop, even when TMAX parsed and only TMIN failed |
| WeatherProperties.ScanKeepsRowOrder | compare_weather_csv.py:65-74 | the reading of an accepted row that the loop reaches is its parsed date, TMAX and TMIN. It sits at the position equal to the number of readings from the earlier rows |
| WeatherProperties.ScanReadingOrigin | compare_weather_csv.py:72-74 | every reading comes from an accepted row of the file, and the k-th from the row with k readings before it |
| WeatherProperties.ScanNothingAccepted | compare_weather_csv.py:59-74 | a file with no accepted row yields no readings |
| WeatherProperties.RunMissingDate | compare_weather_csv.py:42-47 | a run ends in the caught `MissingDate` exactly when both files have a header and file 1's header lacks `DATE` |
| WeatherProperties.RunMissingColumn | compare_weather_csv.py:48-56 | a run ends in an uncaught `MissingColumn` exactly when file 1 has `DATE` but some label is missing from either header |
| WeatherProperties.ScanAbortsAtLine | compare_weather_csv.py:59-61 | a file whose data lines before line `j` all read without raising, and whose line `j` is fatal, makes its loop raise at data row `j - 1` with that line's fault |
| WeatherProperties.RunAbortsInFirst | compare_weather_csv.py:58-74 | with both headers complete, a raise in file 1's loop ends the run as `BadRow(1, …)` with that row and fault |
| WeatherProperties.RunAbortsInSecond | compare_weather_csv.py:76-88 | with both headers complete and file 1 read without raising, a raise in file 2's loop ends the run as `BadRow(2, …)` with that row and fault |
| WeatherProperties.RunFirstFileAborts | compare_weather_csv.py:59-61 | the first fatal data row of file 1, a short row or a bad date, ends the whole run at that row with that fault |
| WeatherProperties.RunBadDateAborts | compare_weather_csv.py:59-61 | a bad date in a data row of file 1, after rows that all read without raising, ends the whole run at that row |
| WeatherProperties.RunSecondFileAborts | compare_weather_csv.py:76-78 | once file 1 is read without raising, the first fatal data row of file 2 ends the run at that row with that fault |
| WeatherProperties.RunSecondBadDateAborts | compare_weather_csv.py:76-78 | once file 1 is read without raising, a bad date in file 2 after rows that all read without raising ends the run as `BadRow(2, j - 1, BadDate)` |
| WeatherProperties.RunDuplicateIff | compare_weather_csv.py:90-95 | a run ends as `Duplicate` exactly when both headers are complete, both files read without raising, and the two lists of highs are equal |
| WeatherProperties.RunReadyToPlotIff | compare_weather_csv.py:90-97 | the script goes on to plot exactly when both headers are complete, both files read without raising, and the two lists of highs differ |
| WeatherProperties.RunNoReadingsIsDuplicate | compare_weather_csv.py:90-95 | two files with complete headers whose every data row is skipped are reported as duplicates |
| WeatherProperties.RunHeadersOnlyIsDuplicate | compare_weather_csv.py:90-95 | two files holding only complete headers are reported as duplicates |
| WeatherProperties.RunListsAreReadings | compare_weather_csv.py:58-88 | a run that reaches the duplicate check has filled each file's lists from empty with exactly that file's readings |
| WeatherProperties.ListsFollowRows | compare_weather_csv.py:65-74 | after a file is read without raising, its three lists have equal length. At the position of each accepted row they hold that row's parsed date, TMAX and TMIN |

## Left out

- Reading the files (`Path.read_text`, `splitlines`), the prompts (`input()`) and the `FileNotFoundError` handler are left out. Each file arrives as its rows.
- CSV tokenisation (`csv.reader`: quoting, escaped separators) is left out. Rows arrive already split into cells.
- Messages printed and the process exit are left out. `exit()` and each uncaught exception become an `Outcome`.
- `ParseInt`: does not model everything `int()` accepts. Surrounding whitespace, `_` separators and non-ASCII digits are rejected here. Python accepts them. The 4300-digit limit is CPython's default. It does not track a limit changed with `sys.set_int_max_str_digits` or `PYTHONINTMAXSTRDIGITS`, nor Python versions before the limit existed.
- `ParseDate`: models `%Y-%m-%d` on ASCII digits only. Locale effects and `strptime`'s other directives are not modelled. The result keeps only year, month and day, where `strptime` returns a `datetime` at midnight.
- Plotting (lines 97-124) is left out. That includes `place_name_n` and `year_n`, which are read in the loops only for the chart and the warning text. It also includes the `UnboundLocalError` plotting raises when a file has no data rows.
- `TestFileNames` (lines 128-138) builds a `WeatherData` once more only to provoke `FileNotFoundError`. It is not modelled separately. Its construction fails on an empty file exactly as `Run` does.
- `WeatherCsv.WeatherData.constructor`: requires both files to be non-empty. The `StopIteration` case is the `NoHeader` outcome of `Run`.
- Per-file fields: the script keeps `header_row_n`, `reader_n`, `dates_n`, `highs_n` and `lows_n` as ten attributes of one object. Here each file's five are grouped into a `WeatherFile` owned by `WeatherData`. The updates are the same.
