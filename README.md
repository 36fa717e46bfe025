# KOSPI investor-flow dashboard: the data pipeline in Dafny

This project models the data pipeline of `data_analyzer.py`, the dashboard
that loads one spreadsheet of daily market indicators and shows it as two
dual-axis charts. The series are the KOSPI index `지수` and the net flows of
foreign (`외국인`), individual (`개인`) and institutional (`기관종합`)
investors. The model covers these parts:

- **Loader** (`loader.dfy`, `labels.dfy`): `load_data` strips whitespace from
  string column labels, as Python's `str.strip()` does, and coerces the date
  column `날짜` to timestamps. Both steps change the data frame in place, so
  the frame is a class whose methods reassign its fields.
- **Projection** (`projection.dfy`): the *raw* series is
  `pd.to_numeric(..., errors="coerce")`, where a cell that does not coerce
  becomes missing, never 0. The *accumulated* series is the same coercion,
  then `fillna(0)`, then `cumsum()`. `cumsum` is a method that keeps a running
  total and is proved equal to the pointwise definition.
- **Chart composer** (`charts.dfy`): `make_original_figure`,
  `make_accumulated_figure` and the older `make_figure` start from an empty
  figure and add one trace per expected series that the table has. `지수` goes
  on axis `y`; the other three go on `y2`, with the suffix ` (누적)` in the
  accumulated views. A right-axis trace carries its `SERIES_COLORS` colour in
  the raw and the accumulated view only; `make_figure` sets no colour. A figure is
  the list of trace records (name, axis, x data, y data, colour).
- **Range filter** (`rangefilter.dfy`, `selection.dfy`): `update_figures`
  keeps the rows whose date part lies in `[start, end]` and rebuilds both
  figures from those rows. `create_app` takes the table's date span
  (`min`/`max` of the date column) from the same module.
- **Presets** (`presets.dfy`): `update_date_range` with the `date_presets`
  table.

Dates are day numbers. A timestamp is a day plus a time of day in
nanoseconds. All values are exact integers. `today` (`pd.Timestamp.now()`)
and the per-cell result of `pd.to_datetime` are parameters.

Three behaviours of the code are worth stating:

- A missing date column is not a pass-through. `create_app` fails with a
  `KeyError` at `df["날짜"]` (data_analyzer.py:229). `DateSpan` returns
  `Err(MissingDateColumn)` in that case. The filter requires the date column
  whenever both bounds are given, because the mask at line 246 reads it.
- The `지수` trace holds the column as read. It is not numerically coerced
  (lines 138 and 187). It also has no explicit colour in any view, even
  though `SERIES_COLORS` has an entry for it.
- A durational preset ends at `today`, not at the table's last date
  (line 284). Its start is clamped only from below, to the first date.

## Model

| member | source | states |
|---|---|---|
| `Labels.TrimStart` | data_analyzer.py:63 | the result is the suffix left after removing the leading whitespace (Python's `str.isspace` set); it is empty or starts with a non-space |
| `Labels.TrimEnd` | data_analyzer.py:63 | the result is the prefix left after removing the trailing whitespace; it is empty or ends with a non-space |
| `Labels.Strip` | data_analyzer.py:63 | `str.strip()`: the result is a contiguous piece of the input with only whitespace before and after it, and no whitespace at either of its ends |
| `Labels.StripUnique` | data_analyzer.py:63 | that characterisation determines the stripped string uniquely |
| `Labels.StripIdempotent` | data_analyzer.py:63 | stripping twice gives the same result as stripping once |
| `Labels.StripLabels` | data_analyzer.py:63 | label normalisation keeps the number and order of columns, strips every string label and leaves every other label unchanged |
| `Labels.StripLabelsIdempotent` | data_analyzer.py:63 | normalising labels twice gives the same labels as normalising once |
| `Loader.ToDatetime` | data_analyzer.py:65 | each date cell becomes a timestamp where the parse succeeds and NaT where it fails, one cell per row |
| `Loader.DataFrame.constructor` | data_analyzer.py:61 | the frame holds exactly the sheet as read |
| `Loader.DataFrame.StripColumnLabels` | data_analyzer.py:63 | the labels are replaced by their normalised form; the columns and row count are unchanged |
| `Loader.DataFrame.CoerceDateColumn` | data_analyzer.py:64-65 | if a `날짜` column exists, exactly that column is replaced by its coerced form; otherwise nothing changes |
| `Loader.LoadData` | data_analyzer.py:56-66 | the loaded frame has the stripped labels and the same row count; the date column, found under its stripped label, is coerced; every other column is as read |
| `Frames.Column` | data_analyzer.py:138 | `df[name]` is a column labelled `name` and has one cell per row |
| `Frames.GetColumn` | data_analyzer.py:132 | `df.get(name)` is absent exactly when there is no such column |
| `Projection.ParseShowInt` | data_analyzer.py:150 | numeric text is read back as the integer it writes |
| `Projection.ParseIntegerDomain` | data_analyzer.py:150 | the numeric text rule: a text reads as a number exactly when every character is a digit except an optional leading sign, and at least one digit is present |
| `Projection.Coerce` | data_analyzer.py:150 | one cell of `to_numeric`: a number passes through unchanged, and a cell has a value exactly when it is a number or integer text |
| `Projection.ToNumeric` | data_analyzer.py:150 | the raw series has one value per row; numbers pass through unchanged; integer text is read; other text, NaN and timestamps become missing, never 0 |
| `Projection.FillNa` | data_analyzer.py:199 | `fillna(v)` replaces every missing value by `v` and keeps the present ones |
| `Projection.CumSum` | data_analyzer.py:199 | `cumsum` keeps the length of its input |
| `Projection.RunningSum` | data_analyzer.py:199 | the running-total loop computes exactly `cumsum` with pandas' skip-missing rule |
| `Projection.Accumulated` | data_analyzer.py:101 | the accumulated series (coerce, fill with 0, `cumsum`) has one value per row and no missing value; `AccumulatedIsPrefixTotal` gives the values themselves |
| `Projection.AccumulatedIsPrefixTotal` | data_analyzer.py:199 | the accumulated series has the length of the input, no missing value, and at row i the sum of the coerced values of rows 0..i, where a non-numeric cell counts as 0 |
| `Projection.AccumulatedSteps` | data_analyzer.py:101 | the first accumulated value is the first coerced value, and each later value adds that row's coerced value to the previous one |
| `Projection.RawAndAccumulatedAgree` | data_analyzer.py:150-199 | where the raw series has a value, the accumulated series adds it; where the raw series is missing, the accumulated series repeats the previous total |
| `Projection.ExampleRawVersusAccumulated` | data_analyzer.py:150-199 | `[5, "x", 3]` projects to `[5, missing, 3]` raw and `[5, 5, 8]` accumulated |
| `Selection.KeptIndices` | data_analyzer.py:248 | the positions a boolean mask keeps are exactly its true positions, in increasing order |
| `Selection.Select` | data_analyzer.py:248 | `s[mask]` holds the elements at the kept positions, in order |
| `Selection.SelectTwice` | data_analyzer.py:246-248 | selecting with a mask, then with a narrower mask among the survivors, is selecting with the narrower mask alone |
| `Charts.SeriesTrace` | data_analyzer.py:85-111 | the `go.Scatter` trace of one series: x data is the date column; it is on `y` exactly for `지수`; its name is the series name exactly for `지수` or in the raw view; it has no colour exactly for `지수` or in `make_figure`, and otherwise the series' `SERIES_COLORS` entry |
| `Charts.FigureFor` | data_analyzer.py:131-161 | the figure specification: at most one trace per expected series, every trace plotted against the date column; `FigureShowsPresentSeries` and `TraceOfSeries` state which traces and what each holds |
| `Charts.PresenceMask` | data_analyzer.py:149 | the mask is true exactly for the names that are columns of the table |
| `Charts.IndexTrace` | data_analyzer.py:133-145 | the left-axis step adds the `지수` trace exactly when that column exists |
| `Charts.AddRightTrace` | data_analyzer.py:197-210 | one pass of the right-axis loop adds the series' trace exactly when the column exists, and otherwise leaves the figure unchanged |
| `Charts.BuildFigure` | data_analyzer.py:131-161 | the builder loops produce the trace list of the figure specification |
| `Charts.MakeOriginalFigure` | data_analyzer.py:129-174 | the raw figure is the specified trace list of the raw view |
| `Charts.MakeAccumulatedFigure` | data_analyzer.py:177-223 | the accumulated figure is the specified trace list of the accumulated view |
| `Charts.MakeFigure` | data_analyzer.py:69-126 | the older combined figure is the specified trace list of its view |
| `Charts.PresentPicks` | data_analyzer.py:134-149 | the series shown are, in order, exactly the expected names that are columns |
| `Charts.FigureShowsPresentSeries` | data_analyzer.py:183-210 | each figure has one trace per expected series that is present and none for an absent one, in the order `지수`, `외국인`, `개인`, `기관종합` |
| `Charts.TraceOfSeries` | data_analyzer.py:134-161 | `지수` is on `y` with its column as read and no colour; a right series is on `y2`, raw under its own name in the raw view, accumulated with ` (누적)` otherwise, coloured from `SERIES_COLORS` except in `make_figure`; every trace's x data is the date column |
| `Charts.IndexAloneOnLeftAxis` | data_analyzer.py:183-194 | a trace is on the left axis exactly when it is the first trace and `지수` is present |
| `Charts.RawAndAccumulatedFiguresAgree` | data_analyzer.py:158-207 | both views show the same series on the same axes with the same colours and x data; an accumulated right trace is the raw trace's values filled with 0 and summed, under the suffixed name; the `지수` trace is identical |
| `Charts.CombinedTraceUncoloured` | data_analyzer.py:98-112 | per series, the `make_figure` trace is the accumulated-view trace without a colour |
| `Charts.CombinedIsUncolouredAccumulated` | data_analyzer.py:69-126 | `make_figure` is the accumulated figure with every explicit colour removed |
| `RangeFilter.DateMask` | data_analyzer.py:246-247 | the mask is true exactly for rows with a timestamp whose date part lies in the bounds; NaT rows are false |
| `RangeFilter.FilterRows` | data_analyzer.py:248 | `df[mask]` keeps every label and column and holds, for each kept position in order, that row's cells |
| `RangeFilter.FilterByDate` | data_analyzer.py:245-250 | the table `update_figures` plots: same labels and columns, no more rows than the input, and the whole input when a bound is missing; `FilterKeepsRowsInRange` states which rows it keeps |
| `RangeFilter.FilterKeepsRowsInRange` | data_analyzer.py:245-248 | with both bounds, the result holds in their original order exactly the rows whose date part d has start.day <= d <= end.day, ignoring time of day and dropping NaT rows |
| `RangeFilter.FilterWithoutBoundIsIdentity` | data_analyzer.py:249-250 | if either bound is absent, the whole table is returned |
| `RangeFilter.DateMaskOfSelect` | data_analyzer.py:246-248 | the date mask of selected rows is the selection of the date mask |
| `RangeFilter.FilterTwice` | data_analyzer.py:244-252 | filtering the filtered table with a later start gives what filtering the original with that start gives |
| `RangeFilter.FilterMonotoneInStart` | data_analyzer.py:246-248 | with end fixed, raising start only removes rows from the scope, never adds one, and never makes the result taller |
| `RangeFilter.MinDay` | data_analyzer.py:229 | the earliest date part among the valid timestamps, absent exactly when there is none |
| `RangeFilter.MaxDay` | data_analyzer.py:230 | the latest date part among the valid timestamps, absent exactly when there is none |
| `RangeFilter.DateSpan` | data_analyzer.py:229-230 | the span is `MissingDateColumn` exactly when the date column is missing and `NoValidDate` exactly when it has no valid timestamp; otherwise it is (earliest, latest) valid date part, with min_date <= max_date |
| `RangeFilter.FullSpanKeepsDatedRows` | data_analyzer.py:229-248 | filtering with the table's own span keeps every row with a valid date and drops only the NaT rows |
| `RangeFilter.UpdateFigures` | data_analyzer.py:244-252 | both figures are built from the same filtered table, by the raw and the accumulated builder |
| `RangeFilter.FiguresShareFilteredDates` | data_analyzer.py:252 | every trace of both returned figures has the dates of the same filtered rows as its x data |
| `Presets.UpdateDateRange` | data_analyzer.py:274-284 | an unknown key gives no update; `"all"` gives (min_date, max_date); an N-day preset ends today and starts at min_date or today - N, whichever is later |
| `Presets.OnlyAllSpansEverything` | data_analyzer.py:256-267 | `"all"` is the only preset without a day count |
| `Presets.DurationalRangeOrdered` | data_analyzer.py:282-284 | an N-day preset gives start <= end exactly when min_date is not after today |
| `Presets.LastWeek` | data_analyzer.py:258 | `"7d"` is (today - 7, today) when the data starts earlier |
| `Presets.TenYearsClamped` | data_analyzer.py:266 | `"10y"` is (min_date, today) when the data starts within the last 3650 days |
| `Presets.UnknownPresetKeepsBounds` | data_analyzer.py:275-276 | an unknown preset leaves the selected bounds unchanged |

## Left out

- The `pkgutil.find_loader` compatibility shim (data_analyzer.py:6-37): it works around the import system and has no pipeline behaviour.
- Reading the Excel file (`pd.read_excel`, line 61): the sheet it returns is the input of `Loader.LoadData`.
- Parsing dates (`pd.to_datetime`, line 65): its per-cell result is a function parameter.
- Parsing the picker's date strings (`pd.Timestamp(start_date)`, line 246) and writing `isoformat()` strings (lines 280, 284): bounds are timestamps and results are day numbers.
- The clock: `today` (line 255) is a parameter.
- Floating-point arithmetic: values are exact integers, so rounding in sums is not modelled.
- Projection.ToNumeric: works cell by cell, so a column that pandas holds as datetime64 (every cell a date) is not modelled: pandas turns it into integer nanoseconds, while the model makes every timestamp missing. Only mixed (object) columns behave as modelled.
- Loader.ToDatetime: works cell by cell through its parameter. pandas infers one date format from the first non-null value and applies it to the whole column, so one cell's result can depend on another; the model does not capture this.
- RangeFilter.FilterByDate: accepts a date column holding numbers or text, where the `.dt` accessor (line 246) would raise. After `load_data` the date column holds only timestamps and NaT, so this case does not arise on the loaded table.
- Projection.ToNumeric: reads only optionally signed decimal integer text. pandas also reads decimal fractions, exponents, surrounding whitespace and spellings such as "inf"; the model treats such text as missing.
- Plotly layout and styling: titles, heights, margins, legend, hover mode, range slider, line widths, spline smoothing and `connectgaps`. These are rendering details with no behaviour to state.
- The Dash application: callback registration, the layout tree, the dropdown's option list and the pickers' allowed range. `Presets.ChoosePreset` stands for Dash's `no_update` rule only.
- `main` and `wsgi.py`: checking a file exists, exiting the process and starting the server are I/O and hosting.
- Duplicate column labels: pandas returns a sub-frame for a repeated label, while the model uses the first column with that label.
- create_app on a date column with no valid timestamp: pandas then carries NaT as both bounds. `RangeFilter.DateSpan` reports `NoValidDate`, and what the dashboard shows in that case is not modelled.
