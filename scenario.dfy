/**
 * A worked example: two consecutive January days with Revenue and Expense, amounts in cents,
 * and the insights and charts they yield.
 */
module Scenario {
  import opened Wrappers
  import opened Dates
  import opened Aggregates
  import opened Tables
  import opened Sorting
  import opened Months
  import opened Charts
  import opened Insights

  const ExampleSchema: Schema := map[DateColumn := DateTime, RevenueColumn := Numeric, ExpenseColumn := Numeric]

  /** A row of the example table. */
  function DayRow(day: Date, revenue: int, expense: int): Row {
    map[DateColumn := Some(When(day)), RevenueColumn := Some(Num(revenue)), ExpenseColumn := Some(Num(expense))]
  }

  const Day1: Row := DayRow(Date(2024, 1, 1), 10000, 4000)
  const Day2: Row := DayRow(Date(2024, 1, 2), 20000, 5000)

  const January: YearMonth := YearMonth(2024, 1)

  /** The entries of the Revenue block and of the Expense block for the example. */
  const RevenueEntries: seq<Insight> :=
    [Total(Revenue, 30000), Average(Revenue, 30000, 2), Maximum(Revenue, 20000), Minimum(Revenue, 10000), RevenueGrowth(10000)]
  const ExpenseEntries: seq<Insight> :=
    [Total(Expense, 9000), Average(Expense, 9000, 2), Maximum(Expense, 5000), Minimum(Expense, 4000)]

  /** The example has the `Date`, `Revenue` and `Expense` columns and no other. */
  lemma ExampleColumns()
    ensures ExampleSchema.Keys == {DateColumn, RevenueColumn, ExpenseColumn}
    ensures DateColumn != RevenueColumn && DateColumn != ExpenseColumn && RevenueColumn != ExpenseColumn
    ensures CategoryColumn !in ExampleSchema && ProfitColumn !in ExampleSchema && MonthColumn !in ExampleSchema
  {
    assert DateColumn[0] == 'D' && RevenueColumn[0] == 'R' && ExpenseColumn[0] == 'E';
    assert CategoryColumn[0] == 'C' && ProfitColumn[0] == 'P' && MonthColumn[0] == 'M';
  }

  /** Every row built by `DayRow` from a valid date fits the example's schema and has no missing cell. */
  lemma DayRowFacts(day: Date, revenue: int, expense: int)
    requires ValidDate(day)
    ensures FitsSchema(ExampleSchema, DayRow(day, revenue, expense)) && Complete(DayRow(day, revenue, expense))
    ensures DateKey(DayRow(day, revenue, expense)) == day
    ensures Amount(DayRow(day, revenue, expense), RevenueColumn) == revenue
    ensures Amount(DayRow(day, revenue, expense), ExpenseColumn) == expense
  {
    ExampleColumns();
  }

  lemma ExampleDays()
    ensures FitsSchema(ExampleSchema, Day1) && Complete(Day1) && FitsSchema(ExampleSchema, Day2) && Complete(Day2)
    ensures DateKey(Day1) == Date(2024, 1, 1) && DateKey(Day2) == Date(2024, 1, 2)
    ensures Amount(Day1, RevenueColumn) == 10000 && Amount(Day2, RevenueColumn) == 20000
    ensures Amount(Day1, ExpenseColumn) == 4000 && Amount(Day2, ExpenseColumn) == 5000
  {
    assert ValidDate(Date(2024, 1, 1)) && ValidDate(Date(2024, 1, 2));
    DayRowFacts(Date(2024, 1, 1), 10000, 4000);
    DayRowFacts(Date(2024, 1, 2), 20000, 5000);
  }

  lemma ExampleAnalysable()
    ensures Analysable(ExampleSchema, [Day1, Day2])
  {
    ExampleColumns();
    ExampleDays();
    assert KnownKinds(ExampleSchema);
  }

  lemma ExampleAmounts()
    ensures Amounts([Day1, Day2], RevenueColumn) == [10000, 20000]
    ensures Amounts([Day1, Day2], ExpenseColumn) == [4000, 5000]
  {
    ExampleDays();
  }

  lemma ExampleMeasures()
    ensures MeasureInsights([Day1, Day2], Revenue) == RevenueEntries[..4]
    ensures MeasureInsights([Day1, Day2], Expense) == ExpenseEntries
  {
    ExampleAmounts();
    assert Sum([10000, 20000]) == 30000 && Sum([4000, 5000]) == 9000 by {
      assert [10000, 20000][..1] == [10000] && [4000, 5000][..1] == [4000];
    }
    assert Max([10000, 20000]) == 20000 && Min([10000, 20000]) == 10000;
    assert Max([4000, 5000]) == 5000 && Min([4000, 5000]) == 4000;
  }

  /** The days are already in date order, so growth is the second day's Revenue minus the first's. */
  lemma ExampleGrowth()
    ensures GrowthOf([Day1, Day2]) == 10000
  {
    ExampleDays();
    assert SortRowsByDate([Day2]) == [Day2] by {
      assert [Day2][1..] == [];
    }
    assert [Day1, Day2][1..] == [Day2];
    assert SortRowsByDate([Day1, Day2]) == InsertByDate(Day1, [Day2]);
    assert InsertByDate(Day1, [Day2]) == [Day1, Day2];
  }

  /** Both days fall in January 2024, so both Revenue amounts are filed under that month. */
  lemma ExampleMonthEntries()
    ensures Entries(WithColumn([Day1, Day2], MonthColumn, MonthPeriods([Day1, Day2])), MonthColumn, RevenueColumn)
      == [(Period(January), 10000), (Period(January), 20000)]
  {
    ExampleDays();
    var rows := [Day1, Day2];
    var cells := MonthPeriods(rows);
    assert cells == [Period(January), Period(January)];
    var w := WithColumn(rows, MonthColumn, cells);
    assert Cell(w[0], MonthColumn) == Some(Period(January)) && Cell(w[1], MonthColumn) == Some(Period(January));
    assert Amount(w[0], RevenueColumn) == 10000 && Amount(w[1], RevenueColumn) == 20000 by {
      ExampleColumns();
    }
    assert w[..1][..0] == [];
    assert Entries(w[..1], MonthColumn, RevenueColumn) == [(Period(January), 10000)];
  }

  /** Two amounts filed under one key make a single group holding their sum. */
  lemma SameKeyGroups(k: Value, a: int, b: int)
    ensures GroupSums([(k, a), (k, b)]) == [Group(k, a + b)]
  {
    var entries := [(k, a), (k, b)];
    assert entries[..1] == [(k, a)];
    assert entries[..1][..0] == [];
    assert GroupSums(entries[..1]) == [Group(k, a)];
  }

  /** Grouping by month gives one group, January 2024, holding the total Revenue. */
  lemma ExampleMonthGroups()
    ensures RevenueByPeriod([Day1, Day2]) == [Group(Period(January), 30000)]
  {
    ExampleMonthEntries();
    SameKeyGroups(Period(January), 10000, 20000);
  }

  /** January 2024 is the only month, and therefore the one with the highest Revenue. */
  lemma ExampleBestMonth()
    ensures BestMonthOf([Day1, Day2]) == Period(January)
  {
    ExampleMonthGroups();
  }

  lemma ExampleRevenueBlock()
    ensures RevenueInsights(ExampleSchema, [Day1, Day2]) == RevenueEntries
  {
    ExampleColumns();
    ExampleMeasures();
    ExampleGrowth();
    assert RevenueEntries == RevenueEntries[..4] + [RevenueGrowth(10000)];
  }

  lemma ExampleOtherBlocks()
    ensures Groupable(ExampleSchema, [Day1, Day2])
    ensures ExpenseInsights(ExampleSchema, [Day1, Day2]) == ExpenseEntries
    ensures ProfitInsights(ExampleSchema, [Day1, Day2]) == []
  {
    ExampleColumns();
    ExampleMeasures();
    assert ExpenseEntries + [] == ExpenseEntries;
  }

  lemma ExampleFixed()
    ensures Groupable(ExampleSchema, [Day1, Day2])
    ensures FixedInsightsOf(ExampleSchema, [Day1, Day2]) == RevenueEntries + ExpenseEntries
  {
    ExampleRevenueBlock();
    ExampleOtherBlocks();
    assert RevenueEntries + ExpenseEntries + [] == RevenueEntries + ExpenseEntries;
  }

  /** The insight list of the example: the Revenue block, the Expense block, then January 2024 as the best month. */
  lemma ExampleInsights()
    ensures Analysable(ExampleSchema, [Day1, Day2])
    ensures InsightsOf(ExampleSchema, [Day1, Day2])
      == Success(RevenueEntries + ExpenseEntries + [HighestRevenueMonth(Period(January))])
  {
    ExampleAnalysable();
    ExampleColumns();
    ExampleFixed();
    ExampleBestMonth();
    InsightsOfCases(ExampleSchema, [Day1, Day2]);
  }

  /** Two numeric columns, `Revenue` and `Expense`, enough for the correlation heatmap. */
  lemma ExampleNumericColumns()
    ensures NumericColumnCount(ExampleSchema) == 2
  {
    ExampleColumns();
    assert (set c | c in ExampleSchema && ExampleSchema[c] == Numeric) == {RevenueColumn, ExpenseColumn};
  }

  lemma ExampleValidDates()
    ensures ValidDates([Day1, Day2])
  {
    ExampleDays();
    assert ValidDate(Date(2024, 1, 1)) && ValidDate(Date(2024, 1, 2));
  }

  /** Which chart keys the example gets, one by one. */
  lemma ExampleChartMembers()
    ensures ValidDates([Day1, Day2])
    ensures var keys := ChartsOf(ExampleSchema, [Day1, Day2]).Keys;
      && RevenueLine in keys && RevenueArea in keys && ProfitLine !in keys && RevVsExp in keys
      && ExpensesPie !in keys && ExpensesBar !in keys && CorrelationHeatmap in keys && MonthlyRevenue in keys
  {
    var rows := [Day1, Day2];
    ExampleValidDates();
    ExampleColumns();
    ExampleNumericColumns();
    RevenueChartsGating(ExampleSchema, rows);
    ProfitChartGating(ExampleSchema, rows);
    RevVsExpChartGating(ExampleSchema, rows);
    ExpenseChartsGating(ExampleSchema, rows);
    HeatmapGating(ExampleSchema, rows);
  }

  /** A set of chart keys is pinned down by which of the eight keys it holds. */
  lemma ChartKeySet(keys: set<ChartId>)
    requires RevenueLine in keys && RevenueArea in keys && ProfitLine !in keys && RevVsExp in keys
    requires ExpensesPie !in keys && ExpensesBar !in keys && CorrelationHeatmap in keys && MonthlyRevenue in keys
    ensures keys == {RevenueLine, RevenueArea, RevVsExp, CorrelationHeatmap, MonthlyRevenue}
  {
    forall x: ChartId ensures x in keys <==> x in {RevenueLine, RevenueArea, RevVsExp, CorrelationHeatmap, MonthlyRevenue} {
      match x
      case RevenueLine =>
      case RevenueArea =>
      case ProfitLine =>
      case RevVsExp =>
      case ExpensesPie =>
      case ExpensesBar =>
      case CorrelationHeatmap =>
      case MonthlyRevenue =>
    }
  }

  /** The example yields the two Revenue charts, Revenue against Expense, the heatmap and the monthly chart. */
  lemma ExampleChartKeys()
    ensures ValidDates([Day1, Day2])
    ensures ChartsOf(ExampleSchema, [Day1, Day2]).Keys == {RevenueLine, RevenueArea, RevVsExp, CorrelationHeatmap, MonthlyRevenue}
  {
    ExampleChartMembers();
    ChartKeySet(ChartsOf(ExampleSchema, [Day1, Day2]).Keys);
  }

  /** The second day with its `Date` missing, as `generate_charts` may receive it. */
  const Undated: Row := Day2[DateColumn := None]

  lemma UndatedRow()
    ensures Dated(Day1) && !Dated(Undated) && DateKey(Undated) == Date(1970, 1, 1)
    ensures Amount(Undated, RevenueColumn) == 20000
  {
    ExampleDays();
    ExampleColumns();
    assert Cell(Undated, DateColumn) == None;
  }

  lemma UndatedFacts()
    ensures ValidDates([Day1, Undated])
    ensures MonthsOf([Day1, Undated]) == {January} && !AllDated([Day1, Undated])
    ensures MonthRevenue([Day1, Undated], January) == 10000 && UndatedRevenue([Day1, Undated]) == 20000
  {
    var rows := [Day1, Undated];
    ExampleDays();
    UndatedRow();
    assert ValidDate(Date(1970, 1, 1)) && ValidDate(Date(2024, 1, 1));
    assert !Dated(rows[1]);
    assert rows[..1] == [Day1] && [Day1][..0] == [];
    assert MonthRevenue([Day1], January) == 10000;
    assert UndatedRevenue([Day1]) == 0;
    assert MonthsOf(rows) == {January} by {
      assert MonthOf(DateKey(rows[0])) == January;
    }
  }

  /** The labels of a table dated in January 2024 only. */
  lemma JanuaryLabels(months: set<YearMonth>)
    requires months == {January}
    ensures (set m | m in months :: Text(MonthLabel(m))) == {Text("2024-01")}
  {
    assert MonthLabel(January) == "2024-01";
  }

  /** With one row undated, the monthly chart has a January bar and a "NaT" bar. */
  lemma ExampleUndatedMonths()
    ensures ValidDates([Day1, Undated])
    ensures KeysOf(RevenueByMonth([Day1, Undated])) == {Text("2024-01"), Text(NotATime)}
    ensures Lookup(RevenueByMonth([Day1, Undated]), Text("2024-01")) == 10000
    ensures Lookup(RevenueByMonth([Day1, Undated]), Text(NotATime)) == 20000
  {
    var rows := [Day1, Undated];
    UndatedFacts();
    JanuaryLabels(MonthsOf(rows));
    assert MonthLabel(January) == "2024-01";
    RevenueByMonthKeys(rows);
    RevenueByMonthLookup(rows, January);
    RevenueByMonthUndated(rows);
  }
}
