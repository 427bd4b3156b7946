/**
 * `generate_insights`: the ordered list of insight entries drawn from a cleaned table.
 * Amounts are integer cents and every entry keeps its exact number; rendering it as text
 * with a currency sign and two decimals is not part of this model.
 */
module Insights {
  import opened Wrappers
  import opened Dates
  import opened Aggregates
  import opened Tables
  import opened Sorting
  import opened Months
  import opened DataFrames

  /** The three amount columns the insights summarise. */
  datatype Measure = Revenue | Expense | Profit

  function ColumnOf(m: Measure): string {
    match m
    case Revenue => RevenueColumn
    case Expense => ExpenseColumn
    case Profit => ProfitColumn
  }

  /**
   * One insight entry. An average is kept as the exact fraction `sum / count`, a profit margin
   * as the exact percentage `numerator / denominator`.
   */
  datatype Insight =
    | Total(measure: Measure, amount: int)
    | Average(measure: Measure, sum: int, count: nat)
    | Maximum(measure: Measure, amount: int)
    | Minimum(measure: Measure, amount: int)
    | RevenueGrowth(amount: int)
    | TopExpenseCategory(category: Value)
    | ProfitMargin(numerator: int, denominator: int)
    | HighestRevenueMonth(month: Value)

  /** Grouping the new `Month` column by `Revenue` fails when there is no `Revenue` column. */
  datatype InsightError = MissingRevenue

  /**
   * What the insights are computed from: a well-formed table with no missing cell (the output of
   * preprocessing) and at least one row, since mean, max, min and first/last are undefined on an empty one.
   */
  predicate Analysable(schema: Schema, rows: seq<Row>) {
    WellFormed(schema, rows) && AllComplete(rows) && |rows| > 0
  }

  /** In a table with no missing cell, every row has a value in each of the schema's columns. */
  lemma ColumnPresent(schema: Schema, rows: seq<Row>, col: string)
    requires WellFormed(schema, rows) && AllComplete(rows) && col in schema
    ensures KeyPresent(rows, col)
  {
    forall i | 0 <= i < |rows| ensures Cell(rows[i], col).Some? {
      assert FitsSchema(schema, rows[i]) && Complete(rows[i]);
    }
  }

  /** Grouping a non-empty table by a column every row has yields at least one group. */
  lemma GroupsNonEmpty(rows: seq<Row>, keyCol: string, valCol: string)
    requires |rows| > 0 && KeyPresent(rows, keyCol)
    ensures |GroupBy(rows, keyCol, valCol)| > 0
  {
    GroupByCorrect(rows, keyCol, valCol);
    assert Cell(rows[0], keyCol).value in ColumnValues(rows, keyCol);
  }

  /** Total, average, maximum and minimum of one amount column. */
  function MeasureInsights(rows: seq<Row>, m: Measure): seq<Insight>
    requires |rows| > 0
  {
    var amounts := Amounts(rows, ColumnOf(m));
    var total := Sum(amounts);
    [Total(m, total), Average(m, total, |rows|), Maximum(m, Max(amounts)), Minimum(m, Min(amounts))]
  }

  /** Revenue of the last row minus Revenue of the first row once the rows are sorted by `Date`. */
  function GrowthOf(rows: seq<Row>): int
    requires |rows| > 0
  {
    var sorted := SortRowsByDate(rows);
    SortKeepsRows(rows);
    Amount(sorted[|sorted| - 1], RevenueColumn) - Amount(sorted[0], RevenueColumn)
  }

  /** The category whose summed Expense is largest. */
  function TopCategoryOf(rows: seq<Row>): Value
    requires |rows| > 0 && KeyPresent(rows, CategoryColumn)
  {
    GroupsNonEmpty(rows, CategoryColumn, ExpenseColumn);
    var byCategory := GroupBy(rows, CategoryColumn, ExpenseColumn);
    byCategory[ArgMax(byCategory)].key
  }

  /** Total Profit as a percentage of total Revenue, or 0 when there is no Revenue or it sums to 0. */
  function MarginOf(schema: Schema, rows: seq<Row>): Insight {
    var revenue := ColumnSum(rows, RevenueColumn);
    if RevenueColumn in schema && revenue != 0 then ProfitMargin(100 * ColumnSum(rows, ProfitColumn), revenue)
    else ProfitMargin(0, 1)
  }

  /** Revenue summed per calendar month, once the month of each `Date` is written to the `Month` column. */
  function RevenueByPeriod(rows: seq<Row>): seq<Group<Value>> {
    GroupBy(WithColumn(rows, MonthColumn, MonthPeriods(rows)), MonthColumn, RevenueColumn)
  }

  lemma RevenueByPeriodNonEmpty(rows: seq<Row>)
    requires |rows| > 0
    ensures |RevenueByPeriod(rows)| > 0
  {
    MonthColumnValues(rows, MonthPeriods(rows));
    GroupsNonEmpty(WithColumn(rows, MonthColumn, MonthPeriods(rows)), MonthColumn, RevenueColumn);
  }

  /** The month whose summed Revenue is largest. */
  function BestMonthOf(rows: seq<Row>): Value
    requires |rows| > 0
  {
    RevenueByPeriodNonEmpty(rows);
    var monthly := RevenueByPeriod(rows);
    monthly[ArgMax(monthly)].key
  }

  /** The Revenue block: four aggregates, then the growth when there is a `Date` column. */
  function RevenueInsights(schema: Schema, rows: seq<Row>): seq<Insight>
    requires |rows| > 0
  {
    if RevenueColumn in schema then
      MeasureInsights(rows, Revenue) + (if DateColumn in schema then [RevenueGrowth(GrowthOf(rows))] else [])
    else []
  }

  /** A non-empty table whose `Category` column, if there is one, has no missing cell. */
  predicate Groupable(schema: Schema, rows: seq<Row>) {
    |rows| > 0 && (CategoryColumn in schema ==> KeyPresent(rows, CategoryColumn))
  }

  lemma AnalysableGroupable(schema: Schema, rows: seq<Row>)
    requires Analysable(schema, rows)
    ensures Groupable(schema, rows)
  {
    if CategoryColumn in schema {
      ColumnPresent(schema, rows, CategoryColumn);
    }
  }

  /** The Expense block: four aggregates, then the top category when there is a `Category` column. */
  function ExpenseInsights(schema: Schema, rows: seq<Row>): seq<Insight>
    requires Groupable(schema, rows)
  {
    if ExpenseColumn in schema then
      MeasureInsights(rows, Expense)
      + if CategoryColumn in schema then [TopExpenseCategory(TopCategoryOf(rows))] else []
    else []
  }

  /** The Profit block: total, average and margin. */
  function ProfitInsights(schema: Schema, rows: seq<Row>): seq<Insight>
    requires |rows| > 0
  {
    if ProfitColumn in schema then
      var total := ColumnSum(rows, ProfitColumn);
      [Total(Profit, total), Average(Profit, total, |rows|), MarginOf(schema, rows)]
    else []
  }

  /** The entries computed before the `Month` column is written. */
  function FixedInsightsOf(schema: Schema, rows: seq<Row>): seq<Insight>
    requires Groupable(schema, rows)
  {
    RevenueInsights(schema, rows) + ExpenseInsights(schema, rows) + ProfitInsights(schema, rows)
  }

  /** The Month block: the month with the highest Revenue, when there are `Date` and `Revenue` columns. */
  function MonthInsights(schema: Schema, rows: seq<Row>): seq<Insight>
    requires |rows| > 0
  {
    if DateColumn in schema && RevenueColumn in schema then [HighestRevenueMonth(BestMonthOf(rows))] else []
  }

  /** The list `generate_insights` returns, or the error it raises. */
  function InsightsOf(schema: Schema, rows: seq<Row>): Result<seq<Insight>, InsightError>
    requires Analysable(schema, rows)
  {
    AnalysableGroupable(schema, rows);
    if DateColumn in schema && RevenueColumn !in schema then Failure(MissingRevenue)
    else Success(FixedInsightsOf(schema, rows) + MonthInsights(schema, rows))
  }

  /** The three outcomes of `generate_insights`, by which of `Date` and `Revenue` are present. */
  lemma InsightsOfCases(schema: Schema, rows: seq<Row>)
    requires Analysable(schema, rows)
    ensures Groupable(schema, rows)
    ensures DateColumn !in schema ==> InsightsOf(schema, rows) == Success(FixedInsightsOf(schema, rows))
    ensures DateColumn in schema && RevenueColumn !in schema ==> InsightsOf(schema, rows) == Failure(MissingRevenue)
    ensures DateColumn in schema && RevenueColumn in schema ==>
      InsightsOf(schema, rows) == Success(FixedInsightsOf(schema, rows) + [HighestRevenueMonth(BestMonthOf(rows))])
  {
    AnalysableGroupable(schema, rows);
    if DateColumn !in schema {
      assert MonthInsights(schema, rows) == [];
      assert FixedInsightsOf(schema, rows) + [] == FixedInsightsOf(schema, rows);
    }
  }

  /**
   * The model of `generate_insights`. It appends the entries block by block and, when there is a
   * `Date` column, writes each row's month into the caller's `Month` column before grouping by it,
   * so the column is written even when the grouping then fails for want of `Revenue`.
   */
  method GenerateInsights(df: DataFrame) returns (result: Result<seq<Insight>, InsightError>)
    requires df.Valid() && AllComplete(df.rows) && |df.rows| > 0
    modifies df
    ensures df.Valid() && AllComplete(df.rows)
    ensures result == InsightsOf(old(df.schema), old(df.rows))
    ensures DateColumn in old(df.schema) ==>
      && df.schema == old(df.schema)[MonthColumn := MonthPeriod]
      && df.rows == WithColumn(old(df.rows), MonthColumn, MonthPeriods(old(df.rows)))
    ensures DateColumn !in old(df.schema) ==> df.schema == old(df.schema) && df.rows == old(df.rows)
  {
    var schema, rows := df.schema, df.rows;
    InsightsOfCases(schema, rows);
    var insights := FixedInsights(schema, rows);
    if DateColumn in schema {
      MonthColumnKeepsKinds(schema, MonthPeriod);
      df.SetColumn(MonthColumn, MonthPeriod, MonthPeriods(rows));
      if RevenueColumn !in df.schema {
        return Failure(MissingRevenue);
      }
      RevenueByPeriodNonEmpty(rows);
      var monthly := GroupBy(df.rows, MonthColumn, RevenueColumn);
      var highest := monthly[ArgMax(monthly)].key;
      assert highest == BestMonthOf(rows);
      insights := insights + [HighestRevenueMonth(highest)];
    }
    return Success(insights);
  }

  /** The Revenue, Expense and Profit blocks, one after the other. */
  method FixedInsights(schema: Schema, rows: seq<Row>) returns (insights: seq<Insight>)
    requires Groupable(schema, rows)
    ensures insights == FixedInsightsOf(schema, rows)
  {
    var revenueBlock, totalRevenue := RevenueBlock(schema, rows);
    var expenseBlock := ExpenseBlock(schema, rows);
    var profitBlock := ProfitBlock(schema, rows, totalRevenue);
    insights := revenueBlock + expenseBlock + profitBlock;
  }

  /** The Revenue block, entry by entry; also hands back total Revenue for the margin. */
  method RevenueBlock(schema: Schema, rows: seq<Row>) returns (block: seq<Insight>, totalRevenue: int)
    requires |rows| > 0
    ensures block == RevenueInsights(schema, rows)
    ensures RevenueColumn in schema ==> totalRevenue == ColumnSum(rows, RevenueColumn)
  {
    block := [];
    totalRevenue := 0;
    if RevenueColumn in schema {
      var revenues := Amounts(rows, RevenueColumn);
      totalRevenue := Sum(revenues);
      block := block + [Total(Revenue, totalRevenue)];
      block := block + [Average(Revenue, totalRevenue, |rows|)];
      block := block + [Maximum(Revenue, Max(revenues))];
      block := block + [Minimum(Revenue, Min(revenues))];
      assert block == MeasureInsights(rows, Revenue);
      if DateColumn in schema {
        block := block + [RevenueGrowth(GrowthOf(rows))];
      }
    }
  }

  /** The Expense block, entry by entry. */
  method ExpenseBlock(schema: Schema, rows: seq<Row>) returns (block: seq<Insight>)
    requires Groupable(schema, rows)
    ensures block == ExpenseInsights(schema, rows)
  {
    block := [];
    if ExpenseColumn in schema {
      var expenses := Amounts(rows, ExpenseColumn);
      var totalExpense := Sum(expenses);
      block := block + [Total(Expense, totalExpense)];
      block := block + [Average(Expense, totalExpense, |rows|)];
      block := block + [Maximum(Expense, Max(expenses))];
      block := block + [Minimum(Expense, Min(expenses))];
      assert block == MeasureInsights(rows, Expense);
      if CategoryColumn in schema {
        GroupsNonEmpty(rows, CategoryColumn, ExpenseColumn);
        var byCategory := GroupBy(rows, CategoryColumn, ExpenseColumn);
        block := block + [TopExpenseCategory(byCategory[ArgMax(byCategory)].key)];
      }
    }
  }

  /** The Profit block, entry by entry; the margin divides by the total Revenue passed in. */
  method ProfitBlock(schema: Schema, rows: seq<Row>, totalRevenue: int) returns (block: seq<Insight>)
    requires |rows| > 0
    requires RevenueColumn in schema ==> totalRevenue == ColumnSum(rows, RevenueColumn)
    ensures block == ProfitInsights(schema, rows)
  {
    block := [];
    if ProfitColumn in schema {
      var totalProfit := Sum(Amounts(rows, ProfitColumn));
      var margin :=
        if RevenueColumn in schema && totalRevenue != 0 then ProfitMargin(100 * totalProfit, totalRevenue)
        else ProfitMargin(0, 1);
      block := block + [Total(Profit, totalProfit)];
      block := block + [Average(Profit, totalProfit, |rows|)];
      block := block + [margin];
    }
  }
}
