# Financial dashboard analysis pipeline, modelled in Dafny

The dashboard reads an uploaded CSV of financial records into a pandas DataFrame. The three steps
between that table and the rendered page are modelled here:

- **Preprocessing** (`preprocess_data`). It drops every row with a missing cell. When there is a
  `Date` column, it then sorts the rows by date, in place.
- **Chart selection** (`generate_charts`). It picks chart keys from the columns present and the
  number of numeric columns. It computes the two grouped sums the grouped charts are drawn from:
  Expense per `Category` and Revenue per "YYYY-MM" month. It writes that month into a `Month`
  column of the caller's frame.
- **Insights** (`generate_insights`). It builds an ordered list in four blocks: Revenue, Expense,
  Profit and Month. The blocks hold totals, means, maxima and minima, the start-to-end growth, the
  top expense category, the profit margin and the month with the highest Revenue. When there is a
  `Date` column, it writes the month of each date into `Month` as a monthly period.

How the table is represented:

- A table is a schema together with a sequence of rows.
  - The schema maps each column to its dtype (number, text, datetime or monthly period).
  - A row maps each column to a cell that may be missing.
- Amounts are integer cents and dates are calendar dates.
- A chart is its key plus, for the grouped charts, its grouped series. Its title follows from the key.
- An insight is a tagged record holding its exact numbers. Averages and the margin are kept as
  exact fractions.

How the operations are modelled:

- The frame is a `DataFrame` class. `DropNa`, `SortValuesByDate` and `SetColumn` update its
  `rows` and `schema` in place.
- `PreprocessData`, `GenerateCharts` and `GenerateInsights` are methods on that class. Each is
  proved equal to a function that specifies it: `Preprocessed`, `ChartsOf` and `InsightsOf`.
- Lemmas about those functions carry the promised properties.
- `Scenario` works one two-day table through the whole of the insights and the chart keys, and
  shows the monthly chart of a table with one row missing its date.

Four behaviours of the code that the model keeps as written:

- **Sort stability.** `sort_values('Date')` (app.py:46) uses pandas' default quicksort, which is
  not stable. Only "in date order" and "a permutation of the kept rows" are promised. Rows with
  equal dates may be reordered.
- **`generate_charts` changes its input.** It assigns `df['Month']` (app.py:78) on the frame it
  was given, so the caller's frame gains a `Month` text column. `GenerateCharts` states that
  change.
- **Month insight without Revenue.** With a `Date` column and no `Revenue` column,
  `generate_insights` writes `Month` (insights.py:66) and then groups `Revenue` by it
  (insights.py:68), which raises `KeyError`; nothing guards that line. The model returns
  `Failure(MissingRevenue)`, and the `Month` column has already been written when it does.
- **Rows without a date in `generate_charts`.** The function does not drop incomplete rows, and
  a missing `Date` becomes the month text "NaT" (app.py:78), which then groups as a month of its
  own (app.py:79). The model writes "NaT" for such rows and proves what that bar holds.

## Model

| member | source | states |
|---|---|---|
| DataFrames.DataFrame.constructor | app.py:37 | a frame holds exactly the parsed schema and rows |
| DataFrames.DataFrame.DropNa | app.py:43 | the rows become exactly the complete rows, in order; the schema is unchanged; the frame stays well-formed |
| DataFrames.DataFrame.SortValuesByDate | app.py:46 | the rows become the date-sorted rows; the schema is unchanged; completeness is kept |
| DataFrames.DataFrame.SetColumn | app.py:78 | the column is set in every row and its dtype recorded; the frame stays well-formed and complete |
| Cleaning.CompleteRows | app.py:43 | the kept rows are no more than the input and none has a missing cell |
| Cleaning.CompleteRowsMultiplicity | app.py:43 | a row survives exactly when it is complete, as many times as it occurs |
| Cleaning.CompleteRowsCount | app.py:43 | the output has the input's length minus the number of incomplete rows |
| Cleaning.CompleteRowsAppend | app.py:43 | dropping distributes over concatenation, so the kept rows keep their relative order |
| Cleaning.CompleteRowsSubset | app.py:43 | every kept row is an input row with no missing cell |
| Cleaning.CompleteRowsOfComplete | app.py:43 | a table with no missing cell is left unchanged |
| Cleaning.CompleteRowsWellFormed | app.py:43 | dropping rows keeps every row fitting the schema |
| Sorting.InsertByDate | app.py:46 | inserting into date-ordered rows keeps them ordered and adds exactly that row |
| Sorting.SortRowsByDate | app.py:46 | the result is in date order and a permutation of the input |
| Sorting.SortKeepsRows | app.py:46 | sorting keeps the row count and the set of rows |
| Sorting.SortRowsWellFormed | app.py:46 | sorting keeps the table well-formed and complete |
| Sorting.FirstAndLastByDate | insights.py:25-27 | after sorting, the first row has the earliest date and the last row the latest |
| Preprocess.PreprocessData | app.py:36-47 | the new rows are the complete rows, sorted by date exactly when there is a `Date` column; the schema is unchanged |
| Preprocess.PreprocessedClean | app.py:43-46 | no output row has a missing cell, and with `Date` the output is in date order |
| Preprocess.PreprocessedSurvivors | app.py:43 | a row survives iff it is complete; output count = input count minus incomplete rows, so it is never larger |
| Preprocess.PreprocessedWithoutDate | app.py:43-47 | without `Date` the output is the input minus incomplete rows, in the same relative order |
| Preprocess.PreprocessedWithDate | app.py:44-46 | with `Date` the output is date-ordered and a permutation of the complete rows |
| Preprocess.PreprocessedRerun | app.py:43-46 | preprocessing its own output is the identity without `Date`; with `Date` it gives the same multiset, again in date order |
| Dates.MonthOf | app.py:78 | the month of a valid date is a valid month whose first and last days enclose the date |
| Dates.MonthOfUnique | app.py:78 | a month encloses a valid date iff it is that date's month |
| Dates.MonthLabel | app.py:78 | the "YYYY-MM" text is seven characters, digits around a dash |
| Dates.MonthLabelRoundTrip | app.py:78 | parsing a month's label gives the month back |
| Dates.MonthLabelInjective | app.py:78-79 | two months have the same label iff they are the same month, so grouping by label groups by month |
| Tables.DateKeysValid | app.py:45 | every `Date` of a well-formed table is a valid calendar date |
| Tables.MonthColumnKeepsKinds | app.py:78 | writing `Month` leaves the dtypes of Date, Revenue, Expense and Profit alone |
| Tables.WithColumnCells | app.py:78 | setting a column changes that column in every row and no other cell |
| Tables.WithColumnWellFormed | app.py:78 | setting a column with cells of its dtype keeps the table well-formed and complete |
| Tables.EntriesSums | app.py:68 | per key, the group-by entries add up to the rows' sum under that key |
| Tables.EntriesKeys | app.py:68 | the group-by keys are exactly the values of the key column |
| Tables.EntriesAmounts | app.py:68 | with no key missing, the entries carry every row's amount |
| Tables.GroupByCorrect | app.py:68 | one group per distinct key; each total is the sum over that key's rows; totals add up to the column's sum |
| Tables.TopGroupDominates | insights.py:48 | the idxmax key is a value of the column, and its sum is at least that of every value |
| Aggregates.Max | insights.py:14 | the maximum is an element no smaller than any other |
| Aggregates.Min | insights.py:16 | the minimum is an element no larger than any other |
| Aggregates.MeanBetweenMinAndMax | insights.py:10-16 | min * n <= sum <= max * n, i.e. min <= mean <= max |
| Aggregates.GroupSumsCorrect | app.py:68 | grouped sums have distinct keys, the entries' keys, per-key sums and the overall total |
| Aggregates.ArgMax | insights.py:48 | idxmax gives a position whose total is no smaller than any other |
| Aggregates.TopKeyDominates | insights.py:48 | the idxmax key occurs in the entries and its sum is at least any key's sum |
| Months.MonthLabels | app.py:78 | a dated row's text reads back as its month, an undated row's is "NaT"; two dated rows share a text iff they share a month, and no dated row shares the "NaT" text |
| Months.MonthTextSet | app.py:78-79 | the distinct month texts are one label per month that has a dated row, plus "NaT" iff some row is undated |
| Months.MonthPeriods | insights.py:66 | every cell is a monthly period, and two rows share a cell iff their dates fall in the same month |
| Months.MonthColumnRevenue | insights.py:66-68 | summing Revenue under a month key of the new column gives the Revenue of the rows dated in that month |
| Months.UndatedColumnRevenue | app.py:78-79 | summing Revenue under the "NaT" key gives the Revenue of the rows without a date |
| Months.MonthColumnValues | insights.py:66 | the new `Month` column holds exactly the given cells and none is missing |
| Months.WithMonthColumnSum | app.py:78 | writing `Month` does not change any other column's total |
| Charts.GenerateCharts | app.py:50-82 | the charts equal `ChartsOf` of the input, rows without a date included; `Month` is written iff Date and Revenue are present, else the frame is unchanged |
| Charts.KeyRoundTrip | app.py:51-81 | every chart's key string reads back as that chart |
| Charts.KeyInjective | app.py:51-81 | two charts share a dictionary key iff they are the same chart, so none overwrites another |
| Charts.TitleRoundTrip | app.py:53-80 | every chart's title reads back as that chart |
| Charts.TitleInjective | app.py:53-80 | two charts share a title iff they are the same chart |
| Charts.FixedCharts | app.py:51-76 | the charts built before `Month` is written are the time-series, category and heatmap groups |
| Charts.BuildTimeCharts | app.py:52-66 | the Date-indexed charts are built key by key as their gates say |
| Charts.BuildCategoryCharts | app.py:67-72 | the pie and bar charts are built from one Expense-by-Category grouping |
| Charts.BuildHeatmap | app.py:73-76 | the heatmap is built iff there are more than one numeric columns |
| Charts.ChartsOfSplit | app.py:77-81 | the monthly chart is the only one added on top of the fixed charts, exactly when Date and Revenue exist |
| Charts.TimeChartKeys | app.py:52-66 | which Date-indexed keys appear, and no others |
| Charts.RevenueChartsGating | app.py:52-81 | `revenue_line`, `revenue_area` and `monthly_revenue` appear iff Date and Revenue are present |
| Charts.ProfitChartGating | app.py:58-60 | `profit_line` appears iff Date and Profit are present |
| Charts.RevVsExpChartGating | app.py:61-66 | `rev_vs_exp` appears iff Date, Revenue and Expense are present |
| Charts.ExpenseChartsGating | app.py:67-72 | `expenses_pie` and `expenses_bar` appear iff Category and Expense are present |
| Charts.HeatmapGating | app.py:73-76 | `heatmap` appears iff there is more than one numeric column |
| Charts.ExpenseChartsShareGrouping | app.py:68-72 | the pie and the bar chart carry the same Expense-by-Category grouping |
| Charts.ExpenseByCategoryCorrect | app.py:68 | that grouping has one entry per category, each the category's Expense sum, and the totals add up to total Expense |
| Charts.MonthlyChartGrouping | app.py:77-81 | the monthly chart carries Revenue grouped by "YYYY-MM" month |
| Charts.RevenueByMonthKeys | app.py:78-79 | the monthly groups are one per month with a dated row, keyed by its label, plus a "NaT" group iff some row has no date |
| Charts.RevenueByMonthLookup | app.py:78-79 | each month's group holds the Revenue of the rows dated in that month |
| Charts.RevenueByMonthUndated | app.py:78-79 | the "NaT" group holds the Revenue of the rows without a date |
| Charts.RevenueByMonthTotal | app.py:79 | the monthly sums add up to total Revenue |
| Insights.GroupsNonEmpty | insights.py:48 | grouping a non-empty table by a key every row has gives at least one group |
| Insights.RevenueByPeriodNonEmpty | insights.py:68-70 | the monthly grouping idxmax runs over is never empty |
| Insights.InsightsOfCases | insights.py:64-72 | no `Date`: the fixed blocks; `Date` without `Revenue`: the error; both: the fixed blocks then the best month |
| Insights.GenerateInsights | insights.py:5-74 | the result equals `InsightsOf` of the input; with `Date` the `Month` period column is written, otherwise the frame is unchanged |
| Insights.FixedInsights | insights.py:6-62 | the Revenue, Expense and Profit blocks, in that order |
| Insights.RevenueBlock | insights.py:8-29 | total, mean, max, min of Revenue, then the growth when there is `Date`; also total Revenue for the margin |
| Insights.ExpenseBlock | insights.py:31-50 | total, mean, max, min of Expense, then the top category when there is `Category` |
| Insights.ProfitBlock | insights.py:52-62 | total and mean of Profit, then the margin over the total Revenue passed in |
| InsightProperties.MeasureInsightsFacts | insights.py:8-21 | four entries Total/Average/Max/Min; total = column sum, average = total / rows; max and min attained and bounding every row; min <= mean <= max |
| InsightProperties.GrowthIsLastMinusFirst | insights.py:23-29 | growth is the Revenue of a latest-dated row minus that of an earliest-dated row |
| InsightProperties.TopCategoryDominates | insights.py:46-50 | the top category is a category of the table, and no category has a larger Expense sum |
| InsightProperties.MarginGuard | insights.py:58 | the denominator is never 0; the margin is 100 * Profit / Revenue when Revenue exists and is nonzero, else 0 |
| InsightProperties.AnalysableDated | insights.py:64-66 | in a table the insights accept, with `Date`, every row has a date |
| InsightProperties.BestMonthDominates | insights.py:64-72 | the best month is a month of the dates, and no month has a larger Revenue sum |
| InsightProperties.BlocksInOrder | insights.py:6-72 | four blocks of ranks 0 to 3, concatenated, are in rank order |
| InsightProperties.InRankedBlocks | insights.py:6-72 | an entry can be in the list only through the block of its own rank |
| InsightProperties.RevenueBlockShape | insights.py:8-29 | the Revenue block has 4 entries, plus 1 with `Date`, and is empty without Revenue |
| InsightProperties.ExpenseBlockShape | insights.py:31-50 | the Expense block has 4 entries, plus the top category with `Category`, and is empty without Expense |
| InsightProperties.ProfitBlockShape | insights.py:52-62 | the Profit block has 3 entries including the margin, and is empty without Profit |
| InsightProperties.MonthBlock | insights.py:64-72 | the Month block is the best month iff Date and Revenue are present |
| InsightProperties.InsightsLayout | insights.py:5-74 | it fails iff Date is present without Revenue; otherwise the count is fixed by the columns present and the blocks are in Revenue, Expense, Profit, Month order, whatever the column order |
| InsightProperties.SuccessBlocks | insights.py:5-74 | a successful list is the four blocks concatenated, each of its own rank |
| InsightProperties.TotalGating | insights.py:8-62 | a measure's total is in the list iff its column is present |
| InsightProperties.GrowthGating | insights.py:23-29 | the growth entry is in the list iff Revenue and Date are present |
| InsightProperties.TopCategoryGating | insights.py:46-50 | a top-category entry appears iff Expense and Category are present, and it names the top category |
| InsightProperties.MarginGating | insights.py:52-62 | the margin is in the list iff Profit is present |
| InsightProperties.BestMonthGating | insights.py:64-72 | the best-month entry is in a successful list iff Date is present |
| Scenario.ExampleGrowth | insights.py:23-29 | two days in date order: growth is 10000 cents |
| Scenario.ExampleBestMonth | insights.py:64-72 | both days in January 2024: that month is the best month |
| Scenario.ExampleInsights | insights.py:5-74 | the full insight list of the two-day example, entry by entry |
| Scenario.ExampleChartKeys | app.py:50-82 | the two-day example gets exactly the Revenue charts, Revenue against Expense, the heatmap and the monthly chart |
| Scenario.ExampleUndatedMonths | app.py:77-81 | one January day plus a row without a date: the monthly chart has a "2024-01" bar of 10000 and a "NaT" bar of 20000 |

## Left out

- Flask routes, file upload and storage, UUID file names, templates and PDF output through pdfkit
  (app.py:84-125). These are I/O and foreign calls. The routes run preprocessing, charts and
  insights on one frame in sequence; that composition is not modelled beyond each step's effect
  on the frame.
- `pd.read_csv` and `pd.to_datetime`. The model starts from a parsed table whose `Date` cells are
  calendar dates. Parse failures (`DateParseError`) and pandas' nanosecond timestamp range
  (years 1677 to 2262) are not modelled; `ValidDate` admits any four-digit year.
- The EDA report printed by `preprocess_data`. It is output only.
- Building Plotly figures and `to_html`. The Pearson correlation values behind the heatmap are
  floating point. Only the "more than one numeric column" gate is kept.
- Text formatting of the insights (currency sign, thousands separators, two decimals, the `%`
  sign). Each entry keeps its exact integer or fraction instead.
- Insights.GenerateInsights: requires a table with no missing cell and at least one row. pandas
  skips NaN in sums and means, and its mean, max, min, `iloc` and `idxmax` are undefined or
  raise on an empty table. The pipeline only feeds it preprocessed tables.
- Tables.GroupBy: groups appear in order of first appearance of their key. pandas sorts the
  group keys. Each group's key and total are the same; only the order of the series differs.
- Insights.TopCategoryOf: among categories tied for the largest Expense sum it picks the first
  in order of appearance. pandas' `idxmax` picks the first in sorted key order. The proved
  property is only "no category has a larger sum".
- Insights.BestMonthOf: the same tie-break difference as `TopCategoryOf`, among months.
- Time of day. `pd.to_datetime` keeps any time of day in the `Date` strings, and the sort
  (app.py:46) orders rows of the same day by it, which also decides the first and last rows the
  growth insight uses (insights.py:25-27). The model keeps the calendar date only, so such rows
  count as equal dates.
- InsightProperties.BestMonthDominates: stated for tables whose every row has a date, which is
  every table the insights accept with a `Date` column (`AnalysableDated`). pandas would drop
  undated rows from the monthly grouping as `NaT`; `MonthPeriods` gives them no such key.
- Sorting.SortRowsByDate: rows with equal dates are kept in a fixed insertion order. pandas'
  unstable quicksort may order them differently. Only date order and the permutation are
  promised.
