# LCR quarterly reports and stake analytics, modelled in Dafny

The modelled system pulls quarterly reports of church units (wards and stakes)
from the Leader and Clerk Resources portal, flattens them into a table, and
draws charts of the table per ward. This project models that deterministic
core and proves properties of it:

- `quarter.dfy` (module `Quarters`): the `Quarter` period label. The only
  constructor splits a string such as `"2024-1"` on `-` and converts both
  parts with `int()`. `str()` renders `{year}-Q{quarter}`. The
  `name`/`number` properties are wired unusually: `name` reads the year, and
  its setter writes a separate `_name` field.
- `unit.dfy` (module `Units`): the `Unit` record, whose name and number
  setters check the type of the value assigned.
- `quarterly_report.dfy` (module `QuarterlyReports`): the historical quarterly
  report. For each unit and each quarter the portal lists, the nested
  `sections[].rows[]` report is flattened into one dict. The dict holds five
  context columns, then `id` and `id.potential` for each row, and the last
  write wins. The per-unit lists are then concatenated in unit order. The two
  portal calls are oracles: the function fields of `Api`.
- `stake_quarterlies.dfy` (module `StakeQuarterlies`): the analytics helpers.
  - First-match lookups by `nameResourceId`.
  - The `year >= starting_year` filter.
  - The derived `melch.not.attending` column, assigned in place on a
    `DataFrame` object.
  - The two chart builders, as the traces, legend flags, colour indices,
    subplot cells and dashed lines they add, in order.
  - The 2024 unit standards and the report's six charts.
- `values.dfy` (module `Values`): the Python values these files handle, which
  are JSON values, `isinstance(v, int)` (a bool passes), `str()` of scalars,
  `int()` of a decimal literal, `for x in v` over a list, a string or a dict,
  and the exceptions raised.
- `wrappers.dfy` (module `Wrappers`): `Option`, `Result` and `Outcome`.

An exception in the source is a `Failure` in the model. Apart from the cases
listed under "## Left out", the model raises the same exceptions, from the same
checks, in the same evaluation order as the source. For example,
`row["actualValue"]` is read before `row["nameResourceId"]` at
`lcr/quarterly_report.py:25`, because Python evaluates the right-hand side first.

Each loop of the source is a method with a `while` loop. Its `ensures` ties
the result, or the new state, to a recursive function. The properties are
proved as lemmas about those functions.

A quarter label does not round-trip. The constructor accepts only `Y-N`
(`lcr/quarter.py:6-9`), while `str()` renders `Y-QN` (`lcr/quarter.py:32`),
which the constructor rejects because `int("Q1")` raises. The model follows the
code:

- `Quarters.LabelNeverParses` and `Quarters.RenderedFormDiffers` prove that
  there is no round trip.
- `Quarters.AcceptsAnyQuarterNumber` proves that `"2024-N"` is accepted for every digit N.
- `Quarters.RejectsRenderedForm` proves that `"2024-Q1"` is rejected.

## Model

| member | source | states |
|---|---|---|
| Values.ParseInt | lcr/quarter.py:8-9 | `int(s)` succeeds exactly on an optional sign followed by decimal digits, and then returns their decimal value. Otherwise the error names the literal. |
| Values.ParseIntOfDecimal | lcr/quarter.py:8-9 | `int(str(n)) == n` for every integer `n`. |
| Values.NatToDecimal | lcr/quarter.py:32 | `str(n)` of a natural number is non-empty decimal digits with value `n` and no leading zero. |
| Values.IntToDecimal | lcr/quarter.py:32 | `str(n)` is all digits exactly when `n >= 0`, and contains `-` exactly when `n < 0`. |
| Values.DecimalInjective | lcr/unit.py:27 | Different integers have different `str()`. |
| Values.Field | lcr/quarterly_report.py:25-28 | `d[key]` succeeds exactly on a dict holding the key. A missing key is a `KeyError`; a non-dict is a `TypeError`. |
| Values.Items | lcr/quarterly_report.py:23-24 | `for x in v` yields the items of a list, and succeeds on a list, a string or a dict. Iterating `None`, a bool or an int raises `TypeError`. |
| Values.ItemsOfText | lcr/quarterly_report.py:23-24 | Iterating a string yields its one-character strings in order. Iterating a dict yields every key once, and only strings. |
| Values.SortedKeys | lcr/quarterly_report.py:23-24 | The keys of a dict are listed exactly once each. |
| Values.DictsOnlyFromLists | analytics/stake_quarterlies.py:29-31 | Only iterating a list can yield a dict. |
| Values.Render | lcr/unit.py:27 | Defines `str()` of a scalar: `None`, `True`/`False`, the decimal digits of an int, or the string itself. `Units.DescribeDistinguishesNumbers` proves what it keeps apart. |
| Quarters.Split | lcr/quarter.py:7 | `s.split("-")` has one piece more than `s` has dashes, and no piece contains a dash. |
| Quarters.JoinSplit | lcr/quarter.py:7 | Joining the pieces with the separator gives back the string. |
| Quarters.SplitAtFirst | lcr/quarter.py:7 | The first separator ends the first piece. |
| Quarters.Parse | lcr/quarter.py:7 | A label without exactly one dash fails to unpack. The model's error carries the number of pieces; this count is its abstraction of Python's message, which states the count only for too few pieces. |
| Quarters.ParseTwoParts | lcr/quarter.py:7-9 | With one dash: a bad year part fails first, then a bad quarter part. Otherwise the period is `(int(Y), int(N))`. |
| Quarters.ParseDecimalPair | lcr/quarter.py:6-9 | Every decimal `Y-N` is accepted as year `Y` and quarter `N`. |
| Quarters.Label | lcr/quarter.py:31-32 | The rendered label is never accepted by the constructor. |
| Quarters.LabelNeverParses | lcr/quarter.py:7-9 | No string of the form `{s}-Q{t}` is accepted, whatever `s` and `t` are. |
| Quarters.RenderedFormDiffers | lcr/quarter.py:31-32 | For canonical `Y-N` the constructor gives `(Y, N)`. `str()` then gives `Y-QN`, which differs from the input and is rejected. |
| Quarters.AcceptsAnyQuarterNumber | lcr/quarter.py:6-9 | `"2024-N"` is accepted as quarter N for every digit N, 0 and 7 included: there is no 1-4 range check. |
| Quarters.RejectsRenderedForm | lcr/quarter.py:8-9 | `"2024-Q1"` raises at `int("Q1")`. |
| Quarters.RejectsMissingDash | lcr/quarter.py:7 | `"2024"` fails the two-way unpack (one piece). |
| Quarters.RejectsExtraDash | lcr/quarter.py:7 | `"2024-1-2"` fails the two-way unpack (three pieces). |
| Quarters.Quarter.Decoded | lcr/quarter.py:8-9 | The fields hold the parsed year and quarter, and `_name` is unset. |
| Quarters.Quarter.Create | lcr/quarter.py:6-9 | `Quarter(s)` raises exactly the parse error, or returns a fresh object holding the parsed year and quarter. |
| Quarters.Quarter.Year | lcr/quarter.py:11-13 | The `year` getter reads `_year`. |
| Quarters.Quarter.Name | lcr/quarter.py:15-16 | The `name` getter is the `year` getter, so it reads the year. |
| Quarters.Quarter.QuarterOfYear | lcr/quarter.py:21-23 | The `quarter` getter reads `_quarter`. |
| Quarters.Quarter.Number | lcr/quarter.py:25-26 | The `number` getter is the `quarter` getter. |
| Quarters.Quarter.SetName | lcr/quarter.py:15-19 | A non-int raises "Year must be an integer.". Otherwise only `_name` is written, and the year and quarter stay. |
| Quarters.Quarter.SetNumber | lcr/quarter.py:25-29 | A non-int raises "Quarter must be an integer". Otherwise only `_quarter` is replaced. |
| Quarters.Quarter.ToString | lcr/quarter.py:31-32 | `str(q)` is the label of the year and quarter the getters return, and it does not parse back. |
| Quarters.AssignName | lcr/quarter.py:11-19 | Whatever is assigned to `name`, both `name` and `year` still read the parsed year. The assignment passes exactly for an int. |
| Quarters.AssignNumber | lcr/quarter.py:21-32 | An accepted `number` is what `number` and `str()` then show. A rejected one changes nothing, and the year stays. |
| Units.DescribeDistinguishesNumbers | lcr/unit.py:26-27 | Two units with the same name and different integer numbers render differently. |
| Units.Unit.constructor | lcr/unit.py:2-4 | The name and number are stored as given, with no validation. |
| Units.Unit.Name | lcr/unit.py:6-8 | The getter returns `_name`. |
| Units.Unit.Number | lcr/unit.py:16-18 | The getter returns `_number`. |
| Units.Unit.SetName | lcr/unit.py:10-14 | A non-string raises "Unit name must be a string". Otherwise only `_name` is replaced. |
| Units.Unit.SetNumber | lcr/unit.py:20-24 | A non-int raises "Unit number must be an integer" (a bool passes). Otherwise only `_number` is replaced. |
| Units.Describe | lcr/unit.py:26-27 | Defines the text `Unit(Name: <name>, Number: <number>)` of the two stored values. `Units.DescribeDistinguishesNumbers` and `Units.Unit.ToString` state its properties. |
| Units.Unit.ToString | lcr/unit.py:26-27 | `str(u)` is `Unit(Name: <name>, Number: <number>)` of the getters' values. |
| Units.ConstructAndRead | lcr/unit.py:2-27 | The getters give back what the constructor got, and `str()` shows exactly those values. |
| Units.Reassign | lcr/unit.py:10-24 | Each of renaming and renumbering takes effect exactly when its type check passes. |
| QuarterlyReports.ReadRow | lcr/quarterly_report.py:25-28 | A report row is read exactly when it is a dict with `actualValue`, a string `nameResourceId` and `potentialValue`. It yields those three values. |
| QuarterlyReports.RowsRecords | lcr/quarterly_report.py:24-28 | A section that reads yields one record per row. |
| QuarterlyReports.Writes | lcr/quarterly_report.py:25-28 | Each row performs two dict writes. |
| QuarterlyReports.Context | lcr/quarterly_report.py:16-22 | The context dict has exactly the five keys `year`, `quarter.num`, `quarter`, `unitId` and `unitName`. |
| QuarterlyReports.SectionRows | lcr/quarterly_report.py:24 | Defines the items of `section["rows"]`: a non-dict section or a missing key raises, and the value is iterated as `for` does. `MalformedSectionAborts` and `RowsOfText` state what it does to the flattening. |
| QuarterlyReports.ReportSections | lcr/quarterly_report.py:23 | Defines the items of `qrp["sections"]`, read and iterated the same way. `SectionsOfText` states what it does to the flattening. |
| QuarterlyReports.Overlay | lcr/quarterly_report.py:16-28 | Defines the dict after performing the writes in order on the context. `OverlayKeys`, `LastWriteWins`, `UnwrittenKeyKept` and `OverlaySize` state what it holds. |
| QuarterlyReports.ReportRow | lcr/quarterly_report.py:23-29 | Defines the flattened row: the context overlaid with the writes of every row of every section, or the first error. `FlattenReport` is proved to compute it. |
| QuarterlyReports.FlattenRows | lcr/quarterly_report.py:24-28 | The row loop fails exactly when a row is malformed, with that row's error. Otherwise it is the dict after the two writes of every row, in order. |
| QuarterlyReports.FlattenReport | lcr/quarterly_report.py:23-28 | The section and row loops give the context overlaid with the writes of all rows, sections then rows in order, or the first error. |
| QuarterlyReports.OverlayKeys | lcr/quarterly_report.py:16-28 | A key is in the flattened dict exactly when it is a context key or some write writes it. |
| QuarterlyReports.LastWriteWins | lcr/quarterly_report.py:25-28 | A key holds the value of the last write to it. |
| QuarterlyReports.UnwrittenKeyKept | lcr/quarterly_report.py:16-28 | A key that no write touches keeps its initial value, or stays absent. |
| QuarterlyReports.OverlaySize | lcr/quarterly_report.py:16-28 | The dict grows by at most one key per write, and by exactly one per write when the keys are fresh. |
| QuarterlyReports.WritesAt | lcr/quarterly_report.py:23-28 | Row `k` writes `id` at position `2k` and `id.potential` at `2k+1`. |
| QuarterlyReports.FlattenedColumnCount | lcr/quarterly_report.py:16-28 | A report with N rows flattens to at most 5 + 2N columns. It is exactly 5 + 2N when the written names are pairwise distinct and none is a context name. |
| QuarterlyReports.FlattenedColumnsPresent | lcr/quarterly_report.py:16-28 | Every context column, and `id` and `id.potential` of every row, is in the flattened row. |
| QuarterlyReports.LaterRowWins | lcr/quarterly_report.py:23-28 | A row's two values survive unless a later row, in any section, writes the same name. |
| QuarterlyReports.ContextKeptUnlessOverwritten | lcr/quarterly_report.py:16-28 | A context column keeps its value unless some row writes that name. |
| QuarterlyReports.MalformedSectionAborts | lcr/quarterly_report.py:23-24 | A section whose `rows` cannot be read or iterated, anywhere, aborts the flattening. |
| QuarterlyReports.RowsOfText | lcr/quarterly_report.py:24-25 | A string or a dict under `rows` adds no row when it is empty, and raises `TypeError` at its first item otherwise. |
| QuarterlyReports.SectionsOfText | lcr/quarterly_report.py:23-24 | A string or a dict under `sections` adds no row when it is empty, and raises `TypeError` at its first item otherwise. |
| QuarterlyReports.MalformedRowAborts | lcr/quarterly_report.py:23-28 | A row missing a field, in any section, aborts the flattening: nothing is skipped. |
| QuarterlyReports.MalformedRowAbortsSection | lcr/quarterly_report.py:24-28 | A malformed row aborts its section. |
| QuarterlyReports.ParseAll | lcr/api.py:248-251 | Every listed label is parsed, in order. The list is accepted exactly when every label is. |
| QuarterlyReports.PeriodsFor | lcr/quarterly_report.py:32 | Defines the periods of a unit number: the portal's labels, each parsed by `Quarter(s)`, or the first error. `AvailableReportQuarters` is proved to compute it. |
| QuarterlyReports.ReportRowFor | lcr/quarterly_report.py:14-29 | Defines the row for one period: the report fetched with `(unit.number, quarter, year)`, flattened onto the context. `GetReportRow` is proved to compute it. |
| QuarterlyReports.RowsForPeriods | lcr/quarterly_report.py:33-37 | Defines one fetched row per period, in order, or the first error. `RowsForPeriodsRows` states its contents and `ReportRows` is proved to compute it. |
| QuarterlyReports.UnitReport | lcr/quarterly_report.py:31-37 | Defines a unit's rows: its periods, then one fetched row each. `ReportForUnit` is proved to compute it. |
| QuarterlyReports.Table | lcr/quarterly_report.py:39-43 | Defines the units' reports concatenated in unit order, or the first error. `TableLayout`, `TableFirstError` and `TableAppend` state its properties. |
| QuarterlyReports.RowsForPeriodsAt | lcr/quarterly_report.py:34-36 | In a successful walk there is one row per period, and the `k`-th row is the `k`-th period's fetch. |
| QuarterlyReports.RowsForPeriodsComplete | lcr/quarterly_report.py:34-36 | The walk succeeds when every fetch succeeds. |
| QuarterlyReports.RowsForPeriodsRows | lcr/quarterly_report.py:31-37 | There is one row per listed period, in the portal's order. Each comes from the report fetched with that period's year and quarter. It fails exactly when some fetch or flattening fails. |
| QuarterlyReports.Columns | lcr/quarterly_report.py:44 | The table's columns are exactly the union of all row keys. |
| QuarterlyReports.AvailableReportQuarters | lcr/api.py:248-251 | One fresh `Quarter` per listed label, in order, holding that label's year and quarter; or the first error. |
| QuarterlyReports.GetReportRow | lcr/quarterly_report.py:14-29 | The report is fetched with `(unit.number, q.quarter, q.year)` and flattened onto the five context columns. |
| QuarterlyReports.ReportRows | lcr/quarterly_report.py:33-37 | Given quarters carrying the listed periods, the appended rows are one fetched row per period in order, or the first fetch error. |
| QuarterlyReports.ReportForUnit | lcr/quarterly_report.py:31-37 | The appended rows are exactly the unit's rows, one per listed quarter, or the first error. |
| QuarterlyReports.QuarterlyReport | lcr/quarterly_report.py:39-45 | The table is the units' rows concatenated in unit order, with the union of their keys as columns, or the first error. |
| QuarterlyReports.TableOfReports | lcr/quarterly_report.py:39-44 | When every unit succeeds, the table is the concatenation of the per-unit lists. |
| QuarterlyReports.TableLayout | lcr/quarterly_report.py:39-44 | The table's length is the sum of the per-unit lengths. Row `k` of unit `u` sits right after the rows of the units before `u`. |
| QuarterlyReports.TableFirstError | lcr/quarterly_report.py:41-43 | The first unit whose report fails decides the error. |
| QuarterlyReports.TableAppend | lcr/quarterly_report.py:41-43 | The table of `us + vs` is the table of `us` followed by the table of `vs`. |
| QuarterlyReports.UnitListedTwice | lcr/quarterly_report.py:41-43 | A unit listed twice contributes its rows twice: there is no de-duplication. |
| QuarterlyReports.OneRowRecords | lcr/quarterly_report.py:23-28 | A report with one section and one row reads as that one record. |
| QuarterlyReports.OneRecordRow | lcr/quarterly_report.py:25-28 | One record writes `id`, then `id.potential`, on top of the context. |
| QuarterlyReports.Label2024Q1 | lcr/quarter.py:31-32 | Year 2024, quarter 1 renders as `"2024-Q1"`. |
| QuarterlyReports.OneRowFetched | lcr/quarterly_report.py:14-29 | The fetched one-row report gives the context plus its two columns. |
| QuarterlyReports.ContextColumns | lcr/quarterly_report.py:16-22 | The columns hold the year, `number`, `str(quarter)`, `unit.number` and `unit.name`. |
| QuarterlyReports.OneQuarterUnit | lcr/quarterly_report.py:31-37 | A unit with one listed quarter has exactly that quarter's row, or its error. |
| QuarterlyReports.OneRowColumns | lcr/quarterly_report.py:16-28 | A one-row report that collides with no context name gives exactly 7 columns, with their values. |
| QuarterlyReports.OakHillsExample | lcr/quarterly_report.py:14-37 | Unit 123 with the one quarter `"2024-1"` and one report row of 250 out of 300 gives one table row, labelled `"2024-Q1"`, with the two report columns. |
| QuarterlyReports.OneUnitTable | lcr/quarterly_report.py:39-43 | The table of a single unit is that unit's report. |
| QuarterlyReports.ContextColumnOverwritten | lcr/quarterly_report.py:16-28 | A report row named `year` overwrites the context's `year` and adds `year.potential`. |
| StakeQuarterlies.FirstLabelled | analytics/stake_quarterlies.py:29-31 | `next(...)` finds the first dict labelled with the id, after only unlabelled dicts, or `None`. A non-dict reached first raises `AttributeError`. |
| StakeQuarterlies.GetSectionByLabel | analytics/stake_quarterlies.py:28-33 | It needs a dict holding `sections`. A section it returns is a dict, and only a list under `sections` can hold it. |
| StakeQuarterlies.GetRowByLabel | analytics/stake_quarterlies.py:36-40 | A `None` section raises. A returned row comes from a list under the section's `rows`. |
| StakeQuarterlies.GetValueForField | analytics/stake_quarterlies.py:43-46 | The pair returned starts with the requested row id. |
| StakeQuarterlies.ValueForFieldOutcomes | analytics/stake_quarterlies.py:43-46 | A lookup error is passed on. A missing section or a missing row is subscripted as `None` and raises `TypeError`. A row found without `actualValue` raises `KeyError`. Otherwise the pair holds the row's `actualValue`. |
| StakeQuarterlies.SectionsInText | analytics/stake_quarterlies.py:28-31 | A string or a dict under `sections` is iterated as strings. The lookup gives `None` when it is empty and raises `AttributeError` otherwise. |
| StakeQuarterlies.RowsInText | analytics/stake_quarterlies.py:36-39 | The same holds for a string or a dict under a section's `rows`. |
| StakeQuarterlies.ValueOfFirstMatches | analytics/stake_quarterlies.py:43-46 | The value is the `actualValue` of the first matching row of the first matching section. |
| StakeQuarterlies.FirstLabelledAt | analytics/stake_quarterlies.py:29-31 | A labelled item preceded only by unlabelled dicts is the one found. |
| StakeQuarterlies.LaterSectionIgnored | analytics/stake_quarterlies.py:43-46 | When the first matching section lacks the row, the lookup raises, even though a later section with the same id holds it. |
| StakeQuarterlies.GridSize | analytics/stake_quarterlies.py:53 | `g*g >= n` and `(g-1)*(g-1) < n`: `g` is `ceil(sqrt(n))`. |
| StakeQuarterlies.GridSizeLeast | analytics/stake_quarterlies.py:53 | No smaller square grid holds `n` wards. |
| StakeQuarterlies.GridSizePositive | analytics/stake_quarterlies.py:53 | The grid is empty only for no wards. |
| StakeQuarterlies.CellInBounds | analytics/stake_quarterlies.py:58-60 | Ward `i < n` is placed in row `i//g+1` and column `i%g+1`, both in `[1, g]`. |
| StakeQuarterlies.CellsDistinct | analytics/stake_quarterlies.py:58-60 | Distinct wards get distinct cells. |
| StakeQuarterlies.Unique | analytics/stake_quarterlies.py:52 | `unique()` holds the same values, each once. |
| StakeQuarterlies.UniqueOfDistinct | analytics/stake_quarterlies.py:52 | Values that are already distinct keep their order. |
| StakeQuarterlies.UnitNames | analytics/stake_quarterlies.py:52 | A missing `unitName` column is a `KeyError`, and only then does it fail. |
| StakeQuarterlies.UnitNamesWards | analytics/stake_quarterlies.py:52 | The wards are exactly the names in the `unitName` column, each listed once. |
| StakeQuarterlies.FilterRows | analytics/stake_quarterlies.py:185 | The filter fails exactly when some year cannot be compared. No row is added. |
| StakeQuarterlies.YearAtLeast | analytics/stake_quarterlies.py:185 | Defines `row["year"] >= start`: a missing or `None` year compares false, an int or a bool compares as a number, and anything else raises `TypeError`. `FilterKeeps` and `FilterRows` state the filter built from it. |
| StakeQuarterlies.FilterKeeps | analytics/stake_quarterlies.py:185 | A row is kept exactly when it is a row of the input whose year is at least the start. |
| StakeQuarterlies.FilterByYear | analytics/stake_quarterlies.py:185 | A missing `year` column is a `KeyError`. The columns are kept. |
| StakeQuarterlies.FilterAppend | analytics/stake_quarterlies.py:185 | Filtering a concatenation filters each part: the original order is kept. |
| StakeQuarterlies.FilterOne | analytics/stake_quarterlies.py:185 | A single row is kept exactly when its year passes. |
| StakeQuarterlies.FilterIdempotent | analytics/stake_quarterlies.py:185 | Filtering twice is filtering once. |
| StakeQuarterlies.FilterTwice | analytics/stake_quarterlies.py:185 | Filtering from a later year after an earlier one is filtering from the later year. |
| StakeQuarterlies.FilterByYearIdempotent | analytics/stake_quarterlies.py:185 | The frame filter is idempotent. |
| StakeQuarterlies.LegendKeys | analytics/stake_quarterlies.py:101-104 | `legend_added` has exactly the variables seen. Its indices are below its size and are distinct. |
| StakeQuarterlies.AddLegend | analytics/stake_quarterlies.py:101-104 | Defines one visit of `legend_added`: a new variable gets the current size as its index. `LegendStable` and `LegendFirstSeen` state its effect. |
| StakeQuarterlies.Legend | analytics/stake_quarterlies.py:95-104 | Defines `legend_added` after a sequence of variables. `LegendKeys`, `LegendDense` and `LegendPrefix` state what it holds. |
| StakeQuarterlies.LegendStable | analytics/stake_quarterlies.py:101-104 | Later variables never change an index once it is given. |
| StakeQuarterlies.LegendFirstSeen | analytics/stake_quarterlies.py:101-104 | A variable seen for the first time gets the number of distinct variables before it. |
| StakeQuarterlies.LegendPrefix | analytics/stake_quarterlies.py:101-104 | The legend of a prefix is contained, unchanged, in the legend of the whole. |
| StakeQuarterlies.LegendDense | analytics/stake_quarterlies.py:101-104 | Every index from 0 to k-1 is used, where k is the number of distinct variables. |
| StakeQuarterlies.CellDifference | analytics/stake_quarterlies.py:131 | Text or a container on either side raises. NaN on either side gives NaN. Otherwise the result is the integer difference. |
| StakeQuarterlies.DifferenceCanBeNegative | analytics/stake_quarterlies.py:131 | The difference can be negative. |
| StakeQuarterlies.Difference | analytics/stake_quarterlies.py:131 | A missing left column raises first, then a missing right one. Each row gets its own difference. |
| StakeQuarterlies.DifferenceRows | analytics/stake_quarterlies.py:131 | The difference is computed for every row, or raises `TypeError`. |
| StakeQuarterlies.MelchNotAttendingCells | analytics/stake_quarterlies.py:131 | Each row gets `adult.male.melch - melch.attending` in the new column, and every other cell is unchanged. |
| StakeQuarterlies.WithMelchNotAttending | analytics/stake_quarterlies.py:131 | Defines the frame with the derived column, or the error the subtraction raises. `MelchNotAttendingCells` states its cells. |
| StakeQuarterlies.DataFrame.constructor | analytics/stake_quarterlies.py:184-185 | The object holds the given frame. |
| StakeQuarterlies.DataFrame.AssignDifference | analytics/stake_quarterlies.py:131 | The assignment passes exactly when the difference can be computed. The frame then gains the column; otherwise it is unchanged. |
| StakeQuarterlies.FirstMissing | analytics/stake_quarterlies.py:69-70 | There is no missing variable exactly when every plot variable is a column. |
| StakeQuarterlies.FirstMissingAt | analytics/stake_quarterlies.py:62-77 | A missing variable preceded only by present ones is the one reported. The loop reads columns in order and stops at the first missing one. |
| StakeQuarterlies.TraceError | analytics/stake_quarterlies.py:67-77 | Drawing raises nothing exactly when there are no variables, or `quarter` and every variable are columns. |
| StakeQuarterlies.WardTraces | analytics/stake_quarterlies.py:62-77 | A ward gets one trace per plot variable, in order. |
| StakeQuarterlies.GridLegendOnlyFirstWard | analytics/stake_quarterlies.py:57-66 | Only the first ward's traces can show a legend entry. |
| StakeQuarterlies.GridTracesLength | analytics/stake_quarterlies.py:58-77 | `m` wards give `m` times the number of variables in traces. |
| StakeQuarterlies.GridTraces | analytics/stake_quarterlies.py:58-77 | Defines the traces of the wards, ward by ward and variable by variable. `GridTracesLength`, `GridLegend` and `GridCellsInBounds` state its properties. |
| StakeQuarterlies.GridFigure | analytics/stake_quarterlies.py:49-80 | Defines the grid figure or the error drawing it raises. `GridChart` is proved to compute it. |
| StakeQuarterlies.GridLegend | analytics/stake_quarterlies.py:57-66 | Each variable is in the legend at most once per figure, and only when there are several plot variables. |
| StakeQuarterlies.GridLegendShown | analytics/stake_quarterlies.py:62-66 | With several variables, the first ward shows the legend on each variable's first occurrence. |
| StakeQuarterlies.GridCellsInBounds | analytics/stake_quarterlies.py:58-80 | Every trace and every dashed line lies in a cell of the grid. |
| StakeQuarterlies.AddWardTraces | analytics/stake_quarterlies.py:62-77 | The inner loop adds the ward's traces and updates `legend_added`, or raises the first missing column. |
| StakeQuarterlies.GridChart | analytics/stake_quarterlies.py:49-80 | `make_bar_chart_per_ward_in_grid` builds exactly the grid figure, or the error drawing raises. |
| StakeQuarterlies.ColumnTracesAt | analytics/stake_quarterlies.py:98-115 | Trace `k` is drawn with the legend of the visits before it. |
| StakeQuarterlies.ColumnTraces | analytics/stake_quarterlies.py:96-115 | One trace per visit. `ColumnTracesAt` and `TracesLegend` state their contents. |
| StakeQuarterlies.ColumnFigure | analytics/stake_quarterlies.py:90-127 | Defines the column figure or the error drawing it raises. `ColumnChart` is proved to compute it. |
| StakeQuarterlies.ColumnTraceAt | analytics/stake_quarterlies.py:99-115 | Trace `k` has visit `k`'s variable, its final legend index, and a legend flag exactly on first occurrence. |
| StakeQuarterlies.TracesLegend | analytics/stake_quarterlies.py:95-115 | Colours are final legend indices. Different variables get different colours, and the same variable the same colour. |
| StakeQuarterlies.TracesLegendOnce | analytics/stake_quarterlies.py:99-104 | The legend is shown exactly on a variable's first visit, so at most once per variable. |
| StakeQuarterlies.ColumnLegend | analytics/stake_quarterlies.py:95-115 | In the column chart, colours are dense first-seen indices, distinct per variable, and each variable is in the legend once. |
| StakeQuarterlies.VisitError | analytics/stake_quarterlies.py:105-110 | The first visit that cannot draw decides the error. |
| StakeQuarterlies.AddVisitTrace | analytics/stake_quarterlies.py:100-115 | One variable gets the next legend index if it is new, with its legend shown exactly then. It then raises `KeyError` for a missing `quarter` column first, or for its own missing column. |
| StakeQuarterlies.AddVariableTraces | analytics/stake_quarterlies.py:99-115 | The innermost loop extends the traces and `legend_added` by one visit per variable, or raises the chart's error. |
| StakeQuarterlies.AddRowTraces | analytics/stake_quarterlies.py:98-120 | The row loop does the same for every row of a ward, and adds a dashed line for each row with a standard. |
| StakeQuarterlies.ColumnFigureDrawn | analytics/stake_quarterlies.py:90-120 | When every visit draws, the figure has all traces and all lines. |
| StakeQuarterlies.ColumnFigureFails | analytics/stake_quarterlies.py:105-110 | A visit that cannot draw makes the chart raise its error. |
| StakeQuarterlies.ColumnChart | analytics/stake_quarterlies.py:90-127 | `make_charts_colum_per_ward` builds exactly the column figure, or the error drawing raises. |
| StakeQuarterlies.WardStandards | analytics/stake_quarterlies.py:10-20 | The ward standards are 250 members, 20 Melchizedek leaders, 100 active adults and 20 active youth. |
| StakeQuarterlies.SpecsUseStandards | analytics/stake_quarterlies.py:130-172 | The grid charts' minimum lines are the 2024 ward standards. Primary has none. |
| StakeQuarterlies.AnalyticsRowsUseStandards | analytics/stake_quarterlies.py:187-216 | Four rows carry standards from the 2024 ward standards, and Sacrament and Primary carry none. |
| StakeQuarterlies.RowLinesCount | analytics/stake_quarterlies.py:117-120 | A ward gets one dashed line per row that has a standard. |
| StakeQuarterlies.WardLinesCount | analytics/stake_quarterlies.py:96-120 | All wards together get (wards) times (rows with a standard) dashed lines. |
| StakeQuarterlies.AnalyticsColumnShape | analytics/stake_quarterlies.py:187-217 | The report's column chart has 6 rows, one column per ward titled by it, and 4 dashed lines per ward. |
| StakeQuarterlies.ChartMelchPerWard | analytics/stake_quarterlies.py:130-137 | The derived column is stored in `df` in place, and the grid chart is drawn over the new frame. If the column cannot be computed, it raises and `df` is unchanged. |
| StakeQuarterlies.ChartPerWard | analytics/stake_quarterlies.py:140-172 | One of the other grid charts is exactly the grid figure of its title, minimum line and variables. |
| StakeQuarterlies.MakeIndividualCharts | analytics/stake_quarterlies.py:175-180 | The five charts are drawn in order over the frame with the derived column, which stays on `df`; or the first error. |
| StakeQuarterlies.IndividualCharts | analytics/stake_quarterlies.py:175-180 | Defines the five grid charts in the order drawn, or the first error. `MakeIndividualCharts` is proved to compute it. |
| StakeQuarterlies.AnalyticsCharts | analytics/stake_quarterlies.py:183-217 | Defines the report's six charts after the year filter, or the first error. `CreateQuarterlyAnalytics` is proved to compute it. |
| StakeQuarterlies.CreateQuarterlyAnalytics | analytics/stake_quarterlies.py:183-217 | Filter by year, then the five grid charts, then the column chart titled by the unit, or the first error. |
| StakeQuarterlies.AnalyticsChartsShape | analytics/stake_quarterlies.py:183-217 | A successful run shows six charts. The last is titled by the unit and has 6 rows and 4 dashed lines per ward. |

## Left out

- The portal, browser and HTTP layer (`lcr/api.py`: login, cookies, requests) is not part of this model. The two calls used, `available_report_quarters` and `quarterly_report`, are oracle functions in `Api`. A failed request is any `Failure` they return. The portal's JSON list of labels is modelled as a list of strings.
- CSV input and output (`pd.read_csv`, `to_csv`) are left out. `CreateQuarterlyAnalytics` takes the frame that `read_csv` would return.
- Plotting is left out: `make_subplots`, figure layout (bar mode, axis titles, `shared_yaxes`) and `fig.show`. A figure is the list of traces and dashed lines added, with grid size and subplot titles.
- Plotly's error for a grid of zero rows and columns (no wards) is left out. The model returns an empty figure.
- The D3 palette's length is left out. A colour is the palette index, without the `IndexError` plotly raises past its end.
- The trace's x and y data (`subset["quarter"]`, `subset[variable]`) are left out. Only the `KeyError` they raise for a missing column is modelled.
- `math.sqrt` and `math.ceil` are replaced by integer arithmetic. The grid size is the least natural `g` with `g*g >= n`, which is what they compute.
- Values.ParseInt: accepts only an optional sign and ASCII decimal digits. Python's `int()` also allows surrounding whitespace, underscores between digits and other Unicode digits.
- QuarterlyReports.ReadRow: every non-string `nameResourceId` is an error (`UnsupportedKey`). In Python an int, bool or `None` id would be used as a dict key, and `str(id) + ".potential"` would be written too. A list or dict id is unhashable, so Python raises `TypeError` at the first write and writes nothing.
- Values.Items: a dict's keys are listed in lexicographic order, not in insertion order. Every key is a string, which both the flattening and the lookups reject at the first item, so the order changes no result.
- QuarterlyReports.Columns: the columns are a set. The first-appearance column order that `pd.DataFrame` gives the table is not modelled.
- Values.Render: `str()` covers scalars only. Units and quarters holding lists or dicts are not modelled.
- StakeQuarterlies.CellDifference: NaN is a missing or `Null` cell, and a bool counts as 0 or 1. Floats, and numpy's refusal to subtract two bool columns, are not modelled.
- StakeQuarterlies.YearAtLeast: only integer, bool and missing years are compared. Float years are not modelled.
- The `title` argument of the grid charts and the `unit_name` of the column chart are kept as each chart's title. The layout they configure is not modelled.
- Concurrency and logging are left out: the source has neither in the core, apart from log calls in `lcr/api.py`.
- `run_analytics.py`, `analytics/data.py` and `tests/test_all.py` are not part of this model. They are setup, path building and live-portal checks.
