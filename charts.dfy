/**
 * `generate_charts`: which charts the dashboard shows, decided by which columns the table has,
 * and the two grouped sums behind them. A chart is kept as its kind and title, plus the grouped
 * series for the grouped charts; building and rendering the figure is not modelled.
 */
module Charts {
  import opened Wrappers
  import opened Dates
  import opened Aggregates
  import opened Tables
  import opened Months
  import opened DataFrames

  datatype ChartKind = Line | Area | Spline | TwoLines | Pie | Bar | Heatmap

  /** The dictionary keys of the charts. */
  datatype ChartId =
    | RevenueLine | RevenueArea | ProfitLine | RevVsExp | ExpensesPie | ExpensesBar | CorrelationHeatmap | MonthlyRevenue

  /** The key string each chart is stored under. */
  function Key(id: ChartId): string {
    match id
    case RevenueLine => "revenue_line"
    case RevenueArea => "revenue_area"
    case ProfitLine => "profit_line"
    case RevVsExp => "rev_vs_exp"
    case ExpensesPie => "expenses_pie"
    case ExpensesBar => "expenses_bar"
    case CorrelationHeatmap => "heatmap"
    case MonthlyRevenue => "monthly_revenue"
  }

  /** The title each chart is drawn with. */
  function Title(id: ChartId): string {
    match id
    case RevenueLine => "Revenue Over Time"
    case RevenueArea => "Cumulative Revenue Growth"
    case ProfitLine => "Profit Over Time"
    case RevVsExp => "Revenue vs Expense Over Time"
    case ExpensesPie => "Expenses by Category"
    case ExpensesBar => "Top Expense Categories"
    case CorrelationHeatmap => "Correlation Heatmap"
    case MonthlyRevenue => "Monthly Revenue Trend"
  }

  /** The chart stored under a key string, if any: the inverse of Key. */
  function ChartOfKey(s: string): Option<ChartId> {
    if s == "revenue_line" then Some(RevenueLine)
    else if s == "revenue_area" then Some(RevenueArea)
    else if s == "profit_line" then Some(ProfitLine)
    else if s == "rev_vs_exp" then Some(RevVsExp)
    else if s == "expenses_pie" then Some(ExpensesPie)
    else if s == "expenses_bar" then Some(ExpensesBar)
    else if s == "heatmap" then Some(CorrelationHeatmap)
    else if s == "monthly_revenue" then Some(MonthlyRevenue)
    else None
  }

  lemma KeyRoundTrip(id: ChartId)
    ensures ChartOfKey(Key(id)) == Some(id)
  {
  }

  /** Distinct charts are stored under distinct keys, so no chart overwrites another in the dictionary. */
  lemma KeyInjective(a: ChartId, b: ChartId)
    ensures Key(a) == Key(b) <==> a == b
  {
    KeyRoundTrip(a);
    KeyRoundTrip(b);
  }

  /** The chart drawn with a title, if any: the inverse of Title. */
  function ChartOfTitle(s: string): Option<ChartId> {
    if s == "Revenue Over Time" then Some(RevenueLine)
    else if s == "Cumulative Revenue Growth" then Some(RevenueArea)
    else if s == "Profit Over Time" then Some(ProfitLine)
    else if s == "Revenue vs Expense Over Time" then Some(RevVsExp)
    else if s == "Expenses by Category" then Some(ExpensesPie)
    else if s == "Top Expense Categories" then Some(ExpensesBar)
    else if s == "Correlation Heatmap" then Some(CorrelationHeatmap)
    else if s == "Monthly Revenue Trend" then Some(MonthlyRevenue)
    else None
  }

  lemma TitleRoundTrip(id: ChartId)
    ensures ChartOfTitle(Title(id)) == Some(id)
  {
  }

  /** Distinct charts are drawn with distinct titles. */
  lemma TitleInjective(a: ChartId, b: ChartId)
    ensures Title(a) == Title(b) <==> a == b
  {
    TitleRoundTrip(a);
    TitleRoundTrip(b);
  }

  /** A chart, identified by its key (which fixes its title), with the grouped series behind the grouped ones. */
  datatype Chart =
    | Plot(id: ChartId, kind: ChartKind)
    | Grouped(id: ChartId, kind: ChartKind, groups: seq<Group<Value>>)

  /** The number of numeric columns, the ones the correlation matrix is computed over. */
  function NumericColumnCount(schema: Schema): nat {
    |set c | c in schema && schema[c] == Numeric|
  }

  /** The `Date`-indexed line charts. */
  function TimeCharts(schema: Schema): map<ChartId, Chart> {
    var date, revenue := DateColumn in schema, RevenueColumn in schema;
    (if date && revenue then
       map[RevenueLine := Plot(RevenueLine, Line),
           RevenueArea := Plot(RevenueArea, Area)]
     else map[])
    + (if date && ProfitColumn in schema then map[ProfitLine := Plot(ProfitLine, Spline)] else map[])
    + (if date && revenue && ExpenseColumn in schema then
         map[RevVsExp := Plot(RevVsExp, TwoLines)]
       else map[])
  }

  /** Expense summed per category. */
  function ExpenseByCategory(rows: seq<Row>): seq<Group<Value>> {
    GroupBy(rows, CategoryColumn, ExpenseColumn)
  }

  /** Revenue summed per "YYYY-MM" month, once that text is written to the `Month` column. */
  function RevenueByMonth(rows: seq<Row>): seq<Group<Value>>
    requires ValidDates(rows)
  {
    GroupBy(WithColumn(rows, MonthColumn, MonthLabels(rows)), MonthColumn, RevenueColumn)
  }

  /** The pie and the bar chart of Expense by Category, both over one grouping. */
  function CategoryCharts(schema: Schema, rows: seq<Row>): map<ChartId, Chart> {
    if CategoryColumn in schema && ExpenseColumn in schema then
      var byCategory := ExpenseByCategory(rows);
      map[ExpensesPie := Grouped(ExpensesPie, Pie, byCategory),
          ExpensesBar := Grouped(ExpensesBar, Bar, byCategory)]
    else map[]
  }

  function HeatmapChart(schema: Schema): map<ChartId, Chart> {
    if NumericColumnCount(schema) > 1 then map[CorrelationHeatmap := Plot(CorrelationHeatmap, Heatmap)] else map[]
  }

  /** The bar chart of Revenue summed per "YYYY-MM" month. */
  function MonthlyChart(schema: Schema, rows: seq<Row>): map<ChartId, Chart>
    requires ValidDates(rows)
  {
    if DateColumn in schema && RevenueColumn in schema then
      map[MonthlyRevenue := Grouped(MonthlyRevenue, Bar, RevenueByMonth(rows))]
    else map[]
  }

  /** The charts `generate_charts` returns for a table. */
  function ChartsOf(schema: Schema, rows: seq<Row>): map<ChartId, Chart>
    requires ValidDates(rows)
  {
    FixedChartsOf(schema, rows) + MonthlyChart(schema, rows)
  }

  /** The charts that do not depend on the `Month` column. */
  function FixedChartsOf(schema: Schema, rows: seq<Row>): map<ChartId, Chart> {
    TimeCharts(schema) + CategoryCharts(schema, rows) + HeatmapChart(schema)
  }

  /** The monthly chart is the one chart added on top of the fixed ones. */
  lemma ChartsOfSplit(schema: Schema, rows: seq<Row>)
    requires ValidDates(rows)
    ensures AddsMonthColumn(schema) ==>
      ChartsOf(schema, rows) == FixedChartsOf(schema, rows)[MonthlyRevenue := Grouped(MonthlyRevenue, Bar, RevenueByMonth(rows))]
    ensures !AddsMonthColumn(schema) ==> ChartsOf(schema, rows) == FixedChartsOf(schema, rows)
  {
    if AddsMonthColumn(schema) {
      MapUnionSingleton(FixedChartsOf(schema, rows), MonthlyRevenue, Grouped(MonthlyRevenue, Bar, RevenueByMonth(rows)));
    }
  }

  /** Adding a one-entry map is an update at that key. */
  lemma MapUnionSingleton<K, V>(m: map<K, V>, k: K, v: V)
    ensures m + map[k := v] == m[k := v]
  {
  }


  /** `generate_charts` writes the "YYYY-MM" `Month` column into the caller's frame. */
  predicate AddsMonthColumn(schema: Schema) {
    DateColumn in schema && RevenueColumn in schema
  }

  method GenerateCharts(df: DataFrame) returns (charts: map<ChartId, Chart>)
    requires df.Valid()
    modifies df
    ensures df.Valid() && (AllComplete(old(df.rows)) ==> AllComplete(df.rows))
    ensures charts == ChartsOf(old(df.schema), old(df.rows))
    ensures AddsMonthColumn(old(df.schema)) ==>
      && df.schema == old(df.schema)[MonthColumn := Nominal]
      && df.rows == WithColumn(old(df.rows), MonthColumn, MonthLabels(old(df.rows)))
    ensures !AddsMonthColumn(old(df.schema)) ==> df.schema == old(df.schema) && df.rows == old(df.rows)
  {
    var schema, rows := df.schema, df.rows;
    DateKeysValid(schema, rows);
    charts := FixedCharts(schema, rows);
    ChartsOfSplit(schema, rows);
    if DateColumn in schema && RevenueColumn in schema {
      MonthColumnKeepsKinds(schema, Nominal);
      df.SetColumn(MonthColumn, Nominal, MonthLabels(rows));
      var monthly := GroupBy(df.rows, MonthColumn, RevenueColumn);
      assert monthly == RevenueByMonth(rows);
      charts := charts[MonthlyRevenue := Grouped(MonthlyRevenue, Bar, monthly)];
    }
  }

  /** The charts built before the Month column is written: the time series, the two expense charts and the heatmap. */
  method FixedCharts(schema: Schema, rows: seq<Row>) returns (charts: map<ChartId, Chart>)
    ensures charts == FixedChartsOf(schema, rows)
  {
    var timeCharts := BuildTimeCharts(schema);
    var categoryCharts := BuildCategoryCharts(schema, rows);
    var heatmap := BuildHeatmap(schema);
    charts := timeCharts + categoryCharts + heatmap;
  }

  /** The `Date`-indexed line charts, added one key at a time. */
  method BuildTimeCharts(schema: Schema) returns (charts: map<ChartId, Chart>)
    ensures charts == TimeCharts(schema)
  {
    charts := map[];
    if DateColumn in schema {
      if RevenueColumn in schema {
        charts := charts[RevenueLine := Plot(RevenueLine, Line)];
        charts := charts[RevenueArea := Plot(RevenueArea, Area)];
      }
      if ProfitColumn in schema {
        charts := charts[ProfitLine := Plot(ProfitLine, Spline)];
      }
      if RevenueColumn in schema && ExpenseColumn in schema {
        charts := charts[RevVsExp := Plot(RevVsExp, TwoLines)];
      }
    }
  }

  /** The pie and the bar chart, both drawn from one grouping of Expense by Category. */
  method BuildCategoryCharts(schema: Schema, rows: seq<Row>) returns (charts: map<ChartId, Chart>)
    ensures charts == CategoryCharts(schema, rows)
  {
    charts := map[];
    if CategoryColumn in schema && ExpenseColumn in schema {
      var byCategory := GroupBy(rows, CategoryColumn, ExpenseColumn);
      charts := charts[ExpensesPie := Grouped(ExpensesPie, Pie, byCategory)];
      charts := charts[ExpensesBar := Grouped(ExpensesBar, Bar, byCategory)];
    }
  }

  /** The correlation heatmap, drawn when there are at least two numeric columns. */
  method BuildHeatmap(schema: Schema) returns (charts: map<ChartId, Chart>)
    ensures charts == HeatmapChart(schema)
  {
    charts := map[];
    if NumericColumnCount(schema) > 1 {
      charts := charts[CorrelationHeatmap := Plot(CorrelationHeatmap, Heatmap)];
    }
  }

  lemma TimeChartKeys(schema: Schema)
    ensures var t, date, revenue := TimeCharts(schema), DateColumn in schema, RevenueColumn in schema;
      && (RevenueLine in t <==> date && revenue)
      && (RevenueArea in t <==> date && revenue)
      && (ProfitLine in t <==> date && ProfitColumn in schema)
      && (RevVsExp in t <==> date && revenue && ExpenseColumn in schema)
      && t.Keys <= {RevenueLine, RevenueArea, ProfitLine, RevVsExp}
  {
  }

  /** The two Revenue-over-time charts and the monthly chart are produced exactly when `Date` and `Revenue` are present. */
  lemma RevenueChartsGating(schema: Schema, rows: seq<Row>)
    requires ValidDates(rows)
    ensures RevenueLine in ChartsOf(schema, rows) <==> DateColumn in schema && RevenueColumn in schema
    ensures RevenueArea in ChartsOf(schema, rows) <==> DateColumn in schema && RevenueColumn in schema
    ensures MonthlyRevenue in ChartsOf(schema, rows) <==> DateColumn in schema && RevenueColumn in schema
  {
  }

  /** The Profit line is produced exactly when `Date` and `Profit` are present. */
  lemma ProfitChartGating(schema: Schema, rows: seq<Row>)
    requires ValidDates(rows)
    ensures ProfitLine in ChartsOf(schema, rows) <==> DateColumn in schema && ProfitColumn in schema
  {
    var t, c, h, m := TimeCharts(schema), CategoryCharts(schema, rows), HeatmapChart(schema), MonthlyChart(schema, rows);
    assert ChartsOf(schema, rows) == t + c + h + m;
    assert ProfitLine !in c && ProfitLine !in h && ProfitLine !in m;
  }

  /** The Revenue-versus-Expense chart is produced exactly when `Date`, `Revenue` and `Expense` are present. */
  lemma RevVsExpChartGating(schema: Schema, rows: seq<Row>)
    requires ValidDates(rows)
    ensures RevVsExp in ChartsOf(schema, rows) <==>
      DateColumn in schema && RevenueColumn in schema && ExpenseColumn in schema
  {
  }

  /** The pie and the bar chart are produced together, exactly when `Category` and `Expense` are present. */
  lemma ExpenseChartsGating(schema: Schema, rows: seq<Row>)
    requires ValidDates(rows)
    ensures ExpensesPie in ChartsOf(schema, rows) <==> CategoryColumn in schema && ExpenseColumn in schema
    ensures ExpensesBar in ChartsOf(schema, rows) <==> CategoryColumn in schema && ExpenseColumn in schema
  {
    var t, c, h, m := TimeCharts(schema), CategoryCharts(schema, rows), HeatmapChart(schema), MonthlyChart(schema, rows);
    assert ChartsOf(schema, rows) == t + c + h + m;
    assert ExpensesPie !in t && ExpensesBar !in t;
    assert ExpensesPie !in h && ExpensesBar !in h && ExpensesPie !in m && ExpensesBar !in m;
  }

  /** The heatmap is produced exactly when more than one column is numeric. */
  lemma HeatmapGating(schema: Schema, rows: seq<Row>)
    requires ValidDates(rows)
    ensures CorrelationHeatmap in ChartsOf(schema, rows) <==> NumericColumnCount(schema) > 1
  {
    var t, c, h, m := TimeCharts(schema), CategoryCharts(schema, rows), HeatmapChart(schema), MonthlyChart(schema, rows);
    assert ChartsOf(schema, rows) == t + c + h + m;
    assert CorrelationHeatmap !in t && CorrelationHeatmap !in c && CorrelationHeatmap !in m;
  }

  /** The pie and the bar chart are drawn from one and the same grouping of Expense by Category. */
  lemma ExpenseChartsShareGrouping(schema: Schema, rows: seq<Row>)
    requires ValidDates(rows)
    requires CategoryColumn in schema && ExpenseColumn in schema
    ensures ExpensesPie in ChartsOf(schema, rows) && ExpensesBar in ChartsOf(schema, rows)
    ensures ChartsOf(schema, rows)[ExpensesPie] == Grouped(ExpensesPie, Pie, ExpenseByCategory(rows))
    ensures ChartsOf(schema, rows)[ExpensesBar] == Grouped(ExpensesBar, Bar, ExpenseByCategory(rows))
  {
    var c := CategoryCharts(schema, rows);
    assert ExpensesPie in c && ExpensesBar in c;
    var rest := HeatmapChart(schema) + MonthlyChart(schema, rows);
    assert ExpensesPie !in rest && ExpensesBar !in rest;
    assert ChartsOf(schema, rows) == TimeCharts(schema) + c + rest;
  }

  /**
   * The grouping behind the Expense charts has one group per distinct category, each holding the
   * category's summed Expense; with no category missing the groups add up to the table's total Expense.
   */
  lemma ExpenseByCategoryCorrect(rows: seq<Row>)
    ensures var gs := ExpenseByCategory(rows);
      && DistinctKeys(gs)
      && KeysOf(gs) == ColumnValues(rows, CategoryColumn)
      && (forall i | 0 <= i < |gs| :: gs[i].total == SumWhere(rows, CategoryColumn, gs[i].key, ExpenseColumn))
      && (KeyPresent(rows, CategoryColumn) ==> GroupTotal(gs) == ColumnSum(rows, ExpenseColumn))
  {
    GroupByCorrect(rows, CategoryColumn, ExpenseColumn);
  }

  /** The monthly chart is drawn from the grouping of Revenue by "YYYY-MM" month. */
  lemma MonthlyChartGrouping(schema: Schema, rows: seq<Row>)
    requires ValidDates(rows)
    requires DateColumn in schema && RevenueColumn in schema
    ensures MonthlyRevenue in ChartsOf(schema, rows)
    ensures ChartsOf(schema, rows)[MonthlyRevenue] == Grouped(MonthlyRevenue, Bar, RevenueByMonth(rows))
  {
  }

  /**
   * The monthly grouping has exactly one bar per month in which a row is dated, and one "NaT" bar
   * when some row has no date.
   */
  lemma RevenueByMonthKeys(rows: seq<Row>)
    requires ValidDates(rows)
    ensures DistinctKeys(RevenueByMonth(rows))
    ensures KeysOf(RevenueByMonth(rows)) ==
      (set m | m in MonthsOf(rows) :: Text(MonthLabel(m))) + (if AllDated(rows) then {} else {Text(NotATime)})
  {
    var labels := MonthLabels(rows);
    var w := WithColumn(rows, MonthColumn, labels);
    var gs := GroupBy(w, MonthColumn, RevenueColumn);
    GroupByCorrect(w, MonthColumn, RevenueColumn);
    MonthColumnValues(rows, labels);
    assert forall i | 0 <= i < |rows| :: labels[i] == MonthText(rows[i]);
    MonthTextSet(rows, labels);
  }

  /** The bar of month `m` holds the total Revenue of the rows dated in `m`. */
  lemma RevenueByMonthLookup(rows: seq<Row>, m: YearMonth)
    requires ValidDates(rows)
    requires m in MonthsOf(rows)
    ensures Lookup(RevenueByMonth(rows), Text(MonthLabel(m))) == MonthRevenue(rows, m)
  {
    var labels := MonthLabels(rows);
    var w := WithColumn(rows, MonthColumn, labels);
    var gs := GroupBy(w, MonthColumn, RevenueColumn);
    var key := Text(MonthLabel(m));
    RevenueByMonthKeys(rows);
    GroupByCorrect(w, MonthColumn, RevenueColumn);
    forall i | 0 <= i < |rows| ensures labels[i] == key <==> Dated(rows[i]) && MonthOf(DateKey(rows[i])) == m {
      assert labels[i] == MonthText(rows[i]);
      if Dated(rows[i]) {
        MonthLabelInjective(MonthOf(DateKey(rows[i])), m);
      } else {
        assert |labels[i].text| != |key.text|;
      }
    }
    MonthColumnRevenue(rows, labels, key, m);
    assert key in KeysOf(gs);
    var j :| 0 <= j < |gs| && gs[j].key == key;
    LookupAt(gs, j);
  }

  /** When some row has no date, the "NaT" bar holds the total Revenue of the undated rows. */
  lemma RevenueByMonthUndated(rows: seq<Row>)
    requires ValidDates(rows)
    requires !AllDated(rows)
    ensures Lookup(RevenueByMonth(rows), Text(NotATime)) == UndatedRevenue(rows)
  {
    var labels := MonthLabels(rows);
    var w := WithColumn(rows, MonthColumn, labels);
    var gs := GroupBy(w, MonthColumn, RevenueColumn);
    var key := Text(NotATime);
    RevenueByMonthKeys(rows);
    GroupByCorrect(w, MonthColumn, RevenueColumn);
    forall i | 0 <= i < |rows| ensures labels[i] == key <==> !Dated(rows[i]) {
      assert labels[i] == MonthText(rows[i]);
      if Dated(rows[i]) {
        assert |labels[i].text| != |key.text|;
      }
    }
    UndatedColumnRevenue(rows, labels, key);
    assert key in KeysOf(gs);
    var j :| 0 <= j < |gs| && gs[j].key == key;
    LookupAt(gs, j);
  }

  /** The monthly bars add up to the table's total Revenue. */
  lemma RevenueByMonthTotal(rows: seq<Row>)
    requires ValidDates(rows)
    ensures GroupTotal(RevenueByMonth(rows)) == ColumnSum(rows, RevenueColumn)
  {
    var labels := MonthLabels(rows);
    GroupByCorrect(WithColumn(rows, MonthColumn, labels), MonthColumn, RevenueColumn);
    MonthColumnValues(rows, labels);
    WithMonthColumnSum(rows, labels, RevenueColumn);
  }
}
