# KPI processor of a logistics dashboard, in Dafny

This project models `KPIProcessor`, the core of a small Flask service.
The service takes an uploaded logistics CSV file, computes fifteen ratio KPIs
and the report date, and checks every KPI against a compliance band
("seuils ISO"). The model covers the four parts of the processor and the band
table that the web application passes to it:

- `__init__` stores the bands. `KPIProcessor` is a class whose `const`
  field `isoThresholds` is set by its constructor and never changed.
- `load_csv` reads a table that is already parsed. Pandas' `Date` conversion
  raises first when the `Date` column is absent. After that, the 29 required
  columns are scanned in order and the first missing one is reported.
  `LoadCsv` is that loop, proved against the function `Load`.
- `calculate_kpis` returns a mapping of sixteen entries: `date`, then the
  fifteen ratios. `date` is the first row's date rendered `YYYY-MM-DD`. Each
  ratio is the mean of one column over the mean of another, which equals the
  quotient of the two column sums. An empty table raises `IndexError`. A zero
  denominator gives an IEEE infinity or NaN, not an error.
- `validate_kpis` walks the mapping in order. It keeps the keys that have a
  band and are not `date`, and records for each the value, whether it lies in
  the closed band, and `'Conforme'` or `'Non Conforme'`. A text value under a kept
  key makes Python raise `TypeError`. `ValidateKpis` is that loop, proved
  against the function `Validation`.
- `ISO_THRESHOLDS` (the band table in `app.py`) gives a band to every
  ratio KPI and none to `date`. So the pipeline the application runs reports
  each of the fifteen KPIs exactly once, each judged against its own band
  (`IsoConfig.AppReport`).

Modules:

- `Wrappers`: `Option` and `Result`.
- `Floats`: float64 quotients with their infinities and NaN, and Python's
  comparisons on them.
- `Dates`: calendar dates, `strftime('%Y-%m-%d')` and its inverse.
- `Dataset`: the parsed table, columns, sums and means.
- `KpiProcessor`: the processor.
- `IsoConfig`: the application's bands, and lemmas about the whole pipeline.

Python exceptions become the `Err` side of a `Result`. The dict that
`calculate_kpis` returns, and that `validate_kpis` walks in order, becomes a
sequence of pairs, which keeps its order. The lemma `CalculatedKeysDistinct`
shows that this sequence has no repeated key. The report that `validate_kpis`
builds becomes a `map`, which has no order (see "Left out"). Neither operation
changes its input or the processor: `CalculateKpis` is a function, and
`ValidateKpis` modifies nothing.

Four behaviours of the code are easy to miss, and the model keeps each of them:

- A denominator whose mean is zero raises nothing. The code divides numpy
  floats, so the KPI becomes `inf`, `-inf` or `nan`, and it is reported as
  non-compliant (`CalculateThenValidateEntries`).
- The non-compliant status is the string `'Non Conforme'`, with a space.
- A key without a band is dropped from the report without any error
  (`ValidationKeys`).
- A missing `Date` column is not reported by the column loop. It raises
  pandas' `KeyError` at the date conversion on kpi_processor.py:14, before
  the loop runs (`Load`).

## Model

| member | source | states |
|---|---|---|
| `Floats.Divide` | kpi_processor.py:34-48 | a quotient is finite exactly when the divisor is not zero, and then it times the divisor gives the dividend; a zero divisor gives NaN exactly for 0/0, `inf` under a positive dividend and `-inf` under a negative one |
| `Floats.InBand` | kpi_processor.py:63 | the chained comparison `min <= value <= max` holds exactly for finite values inside the closed band, ends included |
| `Dates.DaysInMonth` | kpi_processor.py:14 | a month has 28 to 31 days, and 29 exactly for February of a Gregorian leap year |
| `Dates.Format` | kpi_processor.py:33 | the rendering of a date has ten characters, with dashes at positions 4 and 7 |
| `Dates.ParseFormat` | kpi_processor.py:33 | reading back the rendering of a valid date gives that date |
| `Dates.FormatParse` | kpi_processor.py:33 | a string that reads as a date is exactly that date's rendering |
| `Dates.FormatInjective` | kpi_processor.py:33 | two different dates never render alike |
| `Dataset.Mean` | kpi_processor.py:34-48 | the mean of a non-empty column times its length is the column's sum |
| `Dataset.Column` | kpi_processor.py:34-48 | `df[c]` has one cell per row, the row's value in column `c`, in row order |
| `Dataset.RatioOfMeans` | kpi_processor.py:34-48 | for two columns of equal length the quotient of means equals the quotient of sums, zero divisors included |
| `KpiProcessor.Message` | kpi_processor.py:25 | the missing-column message starts with the prefix `Colonne manquante : `, and the rest is exactly the column's name |
| `KpiProcessor.FirstMissing` | kpi_processor.py:23-25 | no name is reported exactly when every required name is present; a reported name is required, absent, and every name before it is present |
| `KpiProcessor.FindFirstMissing` | kpi_processor.py:23-25 | the scanning loop returns the first required name that is missing |
| `KpiProcessor.RequiredColumns` | kpi_processor.py:15-22 | the required list has 29 names: `Date` first, then exactly the 28 data columns of `DataColumns()`, in their order, none of them `Date` |
| `KpiProcessor.DateNotData` | kpi_processor.py:15-22 | `Date` is not among the other 28 required columns |
| `KpiProcessor.FormulaColumnsAreRequired` | kpi_processor.py:15-48 | each formula's numerator and denominator are required columns |
| `KpiProcessor.Load` | kpi_processor.py:14-26 | fails with `KeyError('Date')` exactly when there is no `Date` column; succeeds exactly when all 29 required columns are present, and then returns the table unchanged; when `Date` is present every failure is a missing column, one that is not `Date` and that follows only present ones in the list |
| `KpiProcessor.LoadedIsComputable` | kpi_processor.py:15-48 | every column a formula reads has a cell in every row of a table that loads |
| `KpiProcessor.Ratio` | kpi_processor.py:34 | one KPI entry is its name paired with the quotient of its columns' sums |
| `KpiProcessor.Ratios` | kpi_processor.py:34-48 | one entry per formula, in order, each the formula's name and the quotient of its columns' sums |
| `KpiProcessor.KpiNamesNotDate` | kpi_processor.py:32-48 | no ratio KPI is called `date` |
| `KpiProcessor.KpiNamesDistinct` | kpi_processor.py:34-48 | the fifteen ratio KPI names are pairwise distinct |
| `KpiProcessor.KPIProcessor.constructor` | kpi_processor.py:4-5 | the processor holds exactly the bands it was given |
| `KpiProcessor.KPIProcessor.LoadCsv` | kpi_processor.py:14-26 | the `Date` conversion, then the loop over required columns, returns `Load` of the table |
| `KpiProcessor.KPIProcessor.CalculateKpis` | kpi_processor.py:32-51 | fails exactly on a table without rows; otherwise 16 entries: `date` with a text that reads back as the first row's date, then each ratio KPI in order with the quotient of its columns' sums |
| `KpiProcessor.CalculatedKeysDistinct` | kpi_processor.py:32-50 | the mapping `calculate_kpis` builds names every KPI once |
| `KpiProcessor.Judge` | kpi_processor.py:61-68 | the recorded value is the KPI's value; compliant exactly when it is a finite value inside the closed band; status `Conforme` exactly when compliant and `Non Conforme` exactly when not |
| `KpiProcessor.KPIProcessor.ValidateKpis` | kpi_processor.py:58-69 | the loop over the mapping returns `Validation` of the mapping under the processor's bands |
| `KpiProcessor.Validation` | kpi_processor.py:58-69 | every key of the report has a band and is not `date`, and holds the verdict for its recorded value under that band; an error names a key that has a band and is not `date` |
| `KpiProcessor.ValidationErrorPersists` | kpi_processor.py:59-63 | once an entry has raised, later entries change nothing |
| `KpiProcessor.ValidationSucceeds` | kpi_processor.py:59-63 | validation succeeds exactly when no kept entry holds text |
| `KpiProcessor.ValidationErrorIsFirst` | kpi_processor.py:59-63 | the error names a kept text entry with no kept text entry before it |
| `KpiProcessor.ValidationKeys` | kpi_processor.py:59-64 | the report's keys are exactly the mapping's keys that have a band and are not `date` |
| `KpiProcessor.ValidationEntry` | kpi_processor.py:60-68 | with distinct keys, each kept key holds a number and gets the verdict for its own value under its own band |
| `IsoConfig.BandEntry` | app.py:16-30 | the entry written at position `k` names the KPI at position `k` of `calculate_kpis`, and its band's minimum is at most its maximum |
| `IsoConfig.BandsFollowFormulas` | app.py:16-30 | there are as many bands as ratio KPIs, listed under the same names in the same order, none empty |
| `IsoConfig.BandNamesDistinct` | app.py:14-31 | no name is written twice in `ISO_THRESHOLDS` |
| `IsoConfig.IsoThresholds` | app.py:14-31 | the dict holds every written name with its written band, and no other key |
| `IsoConfig.FormulaNamesFifteen` | kpi_processor.py:34-48 | the ratio KPIs have fifteen different names |
| `IsoConfig.ThresholdKeys` | app.py:14-31 | the bands name exactly the fifteen ratio KPIs, and `date` has none |
| `IsoConfig.ThresholdOf` | app.py:16-30 | each ratio KPI gets the band written beside its name |
| `IsoConfig.BandsNonEmpty` | app.py:16-30 | every band has its minimum at most its maximum |
| `IsoConfig.ReportSucceeds` | kpi_processor.py:59-63 | a mapping of `date` then one number per formula validates without error when `date` has no band |
| `IsoConfig.ReportKeys` | kpi_processor.py:59-68 | with bands for exactly the names of some formulas, a mapping of `date` then one number per formula validates, and the report's keys are those names, one entry each |
| `IsoConfig.CalculateThenValidateKeys` | kpi_processor.py:32-69 | computing then validating a readable non-empty table with bands for exactly the ratio KPIs succeeds and reports each of the fifteen exactly once |
| `IsoConfig.CalculateThenValidateEntries` | kpi_processor.py:34-68 | in that report each KPI is judged under its own band on the quotient of its columns' sums, and a zero denominator sum makes it `Non Conforme` |
| `IsoConfig.AppReport` | app.py:61-65 | the application's processor on a table that loads and has rows reports all fifteen ratio KPIs, each judged under the band `ISO_THRESHOLDS` writes beside it |
| `IsoConfig.DeliveryRateExample` | kpi_processor.py:34 | on-time deliveries of 90 and 95 out of 100 each give a rate of 0.925, which is `Conforme` under the band [0.90, 1.00] |

## Left out

- The Flask layer of `app.py` is not modelled: the route, the file checks, saving under `uploads/`, CORS, the size limit, logging, and the JSON responses. It is HTTP and file I/O. Only `ISO_THRESHOLDS` is kept, as data.
- CSV parsing (`pd.read_csv`) and date parsing (`pd.to_datetime`) are pandas calls. The model starts from a parsed table whose `Date` cells hold calendar dates. Time-of-day parts, which `strftime('%Y-%m-%d')` drops anyway, are left out too.
- Floating-point rounding is not modelled: a finite quotient is the exact real quotient, and sums do not overflow. Signed zeros are not told apart. A zero divisor does give the IEEE infinities and NaN.
- Cells are reals present in every row. Missing cells, which `mean()` would skip, and non-numeric cells, which would make `mean()` raise, are not modelled. The text column `Entrepôt` is only checked for presence, as the code does.
- Duplicate header names, which pandas renames, are not modelled.
- `float(...)` and `bool(...)` conversions are identities in the model.
- KpiProcessor.Validation: the report is a `map`, so the order in which `validate_kpis` inserts keys into its `results` dict (kpi_processor.py:58, 64) is not modelled; only which keys it holds and what each holds.
- KpiProcessor.KPIProcessor.CalculateKpis: requires the columns the formulas read, which `LoadedIsComputable` gives for every table that loaded. The `KeyError` that `calculate_kpis` would raise on a table that skipped `load_csv` is not modelled.
- The docstring of `load_csv` (kpi_processor.py:10) names columns the code does not use. It describes nothing that runs.
