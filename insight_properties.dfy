/** What the insight list promises: which entries appear, in what order, and what their numbers mean. */
module InsightProperties {
  import opened Wrappers
  import opened Dates
  import opened Aggregates
  import opened Tables
  import opened Sorting
  import opened Months
  import opened Insights

  /** The four aggregates of a column: its sum, its mean as sum over row count, and a maximum and minimum attained by some row. */
  lemma MeasureInsightsFacts(rows: seq<Row>, m: Measure)
    requires |rows| > 0
    ensures var b, col := MeasureInsights(rows, m), ColumnOf(m);
      && |b| == 4
      && b[0] == Total(m, ColumnSum(rows, col))
      && b[1] == Average(m, ColumnSum(rows, col), |rows|)
      && b[2].Maximum? && b[2].measure == m
      && b[3].Minimum? && b[3].measure == m
      && (exists i | 0 <= i < |rows| :: Amount(rows[i], col) == b[2].amount)
      && (exists i | 0 <= i < |rows| :: Amount(rows[i], col) == b[3].amount)
      && (forall i | 0 <= i < |rows| :: b[3].amount <= Amount(rows[i], col) <= b[2].amount)
      && b[3].amount * |rows| <= b[1].sum <= b[2].amount * |rows|
  {
    var col := ColumnOf(m);
    var xs := Amounts(rows, col);
    var b := MeasureInsights(rows, m);
    assert b == [Total(m, Sum(xs)), Average(m, Sum(xs), |rows|), Maximum(m, Max(xs)), Minimum(m, Min(xs))];
    assert |xs| == |rows|;
    MeanBetweenMinAndMax(xs);
    var hi :| 0 <= hi < |xs| && xs[hi] == Max(xs);
    var lo :| 0 <= lo < |xs| && xs[lo] == Min(xs);
    assert Amount(rows[hi], col) == b[2].amount;
    assert Amount(rows[lo], col) == b[3].amount;
    forall i | 0 <= i < |rows| ensures b[3].amount <= Amount(rows[i], col) <= b[2].amount {
      assert xs[i] == Amount(rows[i], col);
    }
  }

  /**
   * Growth is the Revenue of a row with the latest date minus the Revenue of a row with the
   * earliest date.
   */
  lemma GrowthIsLastMinusFirst(rows: seq<Row>)
    requires |rows| > 0
    ensures exists first, last | first in rows && last in rows ::
      && GrowthOf(rows) == Amount(last, RevenueColumn) - Amount(first, RevenueColumn)
      && forall r | r in rows :: DateLe(DateKey(first), DateKey(r)) && DateLe(DateKey(r), DateKey(last))
  {
    FirstAndLastByDate(rows);
    var s := SortRowsByDate(rows);
    var first, last := s[0], s[|s| - 1];
    assert GrowthOf(rows) == Amount(last, RevenueColumn) - Amount(first, RevenueColumn);
  }

  /** The top expense category is a category of the table, and no category has a larger Expense sum. */
  lemma TopCategoryDominates(rows: seq<Row>)
    requires |rows| > 0 && KeyPresent(rows, CategoryColumn)
    ensures TopCategoryOf(rows) in ColumnValues(rows, CategoryColumn)
    ensures forall c | c in ColumnValues(rows, CategoryColumn) ::
      SumWhere(rows, CategoryColumn, c, ExpenseColumn) <= SumWhere(rows, CategoryColumn, TopCategoryOf(rows), ExpenseColumn)
  {
    var k := Cell(rows[0], CategoryColumn).value;
    assert k in ColumnValues(rows, CategoryColumn);
    TopGroupDominates(rows, CategoryColumn, ExpenseColumn, k);
    forall c | c in ColumnValues(rows, CategoryColumn)
      ensures SumWhere(rows, CategoryColumn, c, ExpenseColumn) <= SumWhere(rows, CategoryColumn, TopCategoryOf(rows), ExpenseColumn)
    {
      TopGroupDominates(rows, CategoryColumn, ExpenseColumn, c);
    }
  }

  /**
   * The margin never divides by zero: it is 100 * Profit / Revenue when there is a Revenue column
   * whose total is not 0, and 0 otherwise.
   */
  lemma MarginGuard(schema: Schema, rows: seq<Row>)
    ensures var mg, revenue := MarginOf(schema, rows), ColumnSum(rows, RevenueColumn);
      && mg.ProfitMargin? && mg.denominator != 0
      && (RevenueColumn in schema && revenue != 0 ==>
            mg.numerator * revenue == 100 * ColumnSum(rows, ProfitColumn) * mg.denominator)
      && (RevenueColumn !in schema || revenue == 0 ==> mg.numerator == 0)
  {
  }

  /** In a table the insights accept, when it has `Date`, every row is dated. */
  lemma AnalysableDated(schema: Schema, rows: seq<Row>)
    requires Analysable(schema, rows) && DateColumn in schema
    ensures AllDated(rows)
  {
    forall i | 0 <= i < |rows| ensures Dated(rows[i]) {
      assert FitsSchema(schema, rows[i]) && Complete(rows[i]);
      assert DateColumn in rows[i];
    }
  }

  /** The highest-Revenue month is a month of the table, and no month has a larger Revenue sum. */
  lemma BestMonthDominates(rows: seq<Row>)
    requires |rows| > 0 && AllDated(rows)
    ensures BestMonthOf(rows).Period?
    ensures BestMonthOf(rows).month in MonthsOf(rows)
    ensures forall m | m in MonthsOf(rows) :: MonthRevenue(rows, m) <= MonthRevenue(rows, BestMonthOf(rows).month)
  {
    var cells := MonthPeriods(rows);
    var w := WithColumn(rows, MonthColumn, cells);
    MonthColumnValues(rows, cells);
    var k := cells[0];
    assert k in ColumnValues(w, MonthColumn);
    TopGroupDominates(w, MonthColumn, RevenueColumn, k);
    var best := BestMonthOf(rows);
    var j :| 0 <= j < |rows| && cells[j] == best;
    assert best.month in MonthsOf(rows);
    MonthColumnRevenue(rows, cells, best, best.month);
    forall m | m in MonthsOf(rows) ensures MonthRevenue(rows, m) <= MonthRevenue(rows, best.month) {
      var i :| 0 <= i < |rows| && Dated(rows[i]) && MonthOf(DateKey(rows[i])) == m;
      assert cells[i] == Period(m);
      TopGroupDominates(w, MonthColumn, RevenueColumn, Period(m));
      MonthColumnRevenue(rows, cells, Period(m), m);
    }
  }

  /** The block an entry belongs to: Revenue 0, Expense 1, Profit 2, Month 3. */
  function Rank(x: Insight): nat {
    match x
    case Total(m, _) => MeasureRank(m)
    case Average(m, _, _) => MeasureRank(m)
    case Maximum(m, _) => MeasureRank(m)
    case Minimum(m, _) => MeasureRank(m)
    case RevenueGrowth(_) => 0
    case TopExpenseCategory(_) => 1
    case ProfitMargin(_, _) => 2
    case HighestRevenueMonth(_) => 3
  }

  function MeasureRank(m: Measure): nat {
    match m
    case Revenue => 0
    case Expense => 1
    case Profit => 2
  }

  predicate AllRank(xs: seq<Insight>, r: nat) {
    forall i | 0 <= i < |xs| :: Rank(xs[i]) == r
  }

  predicate RankOrdered(xs: seq<Insight>) {
    forall i, j | 0 <= i < j < |xs| :: Rank(xs[i]) <= Rank(xs[j])
  }

  lemma BlocksInOrder(a: seq<Insight>, b: seq<Insight>, c: seq<Insight>, d: seq<Insight>)
    requires AllRank(a, 0) && AllRank(b, 1) && AllRank(c, 2) && AllRank(d, 3)
    ensures RankOrdered(a + b + c + d)
  {
    var xs := a + b + c + d;
    forall k | 0 <= k < |xs|
      ensures Rank(xs[k]) == if k < |a| then 0 else if k < |a| + |b| then 1 else if k < |a| + |b| + |c| then 2 else 3
    {
      if k < |a| {
        assert xs[k] == a[k];
      } else if k < |a| + |b| {
        assert xs[k] == b[k - |a|];
      } else if k < |a| + |b| + |c| {
        assert xs[k] == c[k - |a| - |b|];
      } else {
        assert xs[k] == d[k - |a| - |b| - |c|];
      }
    }
  }

  /** In blocks of ranks 0 to 3, an entry can only sit in the block of its own rank. */
  lemma InRankedBlocks(x: Insight, a: seq<Insight>, b: seq<Insight>, c: seq<Insight>, d: seq<Insight>)
    requires AllRank(a, 0) && AllRank(b, 1) && AllRank(c, 2) && AllRank(d, 3)
    ensures x in a + b + c + d <==>
      || (Rank(x) == 0 && x in a) || (Rank(x) == 1 && x in b) || (Rank(x) == 2 && x in c) || (Rank(x) == 3 && x in d)
  {
    assert x in a + b + c + d <==> x in a || x in b || x in c || x in d;
    if x in a {
      var i :| 0 <= i < |a| && a[i] == x;
    }
    if x in b {
      var i :| 0 <= i < |b| && b[i] == x;
    }
    if x in c {
      var i :| 0 <= i < |c| && c[i] == x;
    }
    if x in d {
      var i :| 0 <= i < |d| && d[i] == x;
    }
  }

  lemma RevenueBlockShape(schema: Schema, rows: seq<Row>)
    requires |rows| > 0
    ensures var r := RevenueInsights(schema, rows);
      && AllRank(r, 0)
      && |r| == (if RevenueColumn in schema then 4 + (if DateColumn in schema then 1 else 0) else 0)
      && (Total(Revenue, ColumnSum(rows, RevenueColumn)) in r <==> RevenueColumn in schema)
      && (RevenueGrowth(GrowthOf(rows)) in r <==> RevenueColumn in schema && DateColumn in schema)
  {
    var r := RevenueInsights(schema, rows);
    if RevenueColumn in schema {
      assert r[0] == Total(Revenue, ColumnSum(rows, RevenueColumn));
      if DateColumn in schema {
        assert r[4] == RevenueGrowth(GrowthOf(rows));
      }
    }
  }

  lemma ExpenseBlockShape(schema: Schema, rows: seq<Row>)
    requires Groupable(schema, rows)
    ensures var e := ExpenseInsights(schema, rows);
      && AllRank(e, 1)
      && |e| == (if ExpenseColumn in schema then 4 + (if CategoryColumn in schema then 1 else 0) else 0)
      && (Total(Expense, ColumnSum(rows, ExpenseColumn)) in e <==> ExpenseColumn in schema)
      && ((exists x | x in e :: x.TopExpenseCategory?) <==> ExpenseColumn in schema && CategoryColumn in schema)
      && (forall x | x in e && x.TopExpenseCategory? :: CategoryColumn in schema && x == TopExpenseCategory(TopCategoryOf(rows)))
  {
    var e := ExpenseInsights(schema, rows);
    if ExpenseColumn in schema {
      assert e[0] == Total(Expense, ColumnSum(rows, ExpenseColumn));
      if CategoryColumn in schema {
        assert e[4].TopExpenseCategory?;
      }
    }
  }

  lemma ProfitBlockShape(schema: Schema, rows: seq<Row>)
    requires |rows| > 0
    ensures var p := ProfitInsights(schema, rows);
      && AllRank(p, 2)
      && |p| == (if ProfitColumn in schema then 3 else 0)
      && (Total(Profit, ColumnSum(rows, ProfitColumn)) in p <==> ProfitColumn in schema)
      && (MarginOf(schema, rows) in p <==> ProfitColumn in schema)
  {
    var p := ProfitInsights(schema, rows);
    if ProfitColumn in schema {
      assert p[0] == Total(Profit, ColumnSum(rows, ProfitColumn));
      assert p[2] == MarginOf(schema, rows);
    }
  }

  lemma MonthBlock(schema: Schema, rows: seq<Row>)
    requires |rows| > 0
    ensures var m := MonthInsights(schema, rows);
      && AllRank(m, 3)
      && |m| == (if DateColumn in schema && RevenueColumn in schema then 1 else 0)
      && (HighestRevenueMonth(BestMonthOf(rows)) in m <==> DateColumn in schema && RevenueColumn in schema)
  {
  }

  /** How many entries each block contributes, depending on which columns are present. */
  function ExpectedCount(schema: Schema): nat {
    (if RevenueColumn in schema then 4 + (if DateColumn in schema then 1 else 0) else 0)
    + (if ExpenseColumn in schema then 4 + (if CategoryColumn in schema then 1 else 0) else 0)
    + (if ProfitColumn in schema then 3 else 0)
    + (if DateColumn in schema then 1 else 0)
  }

  /**
   * The insights fail exactly when there is a `Date` column but no `Revenue` column. Otherwise the
   * list has one entry per aggregate of each present block, and the blocks come in the fixed order
   * Revenue, Expense, Profit, Month.
   */
  lemma InsightsLayout(schema: Schema, rows: seq<Row>)
    requires Analysable(schema, rows)
    ensures InsightsOf(schema, rows).Failure? <==> DateColumn in schema && RevenueColumn !in schema
    ensures InsightsOf(schema, rows).Success? ==>
      && |InsightsOf(schema, rows).value| == ExpectedCount(schema)
      && RankOrdered(InsightsOf(schema, rows).value)
  {
    InsightsOfCases(schema, rows);
    var r, e, p, m := RevenueInsights(schema, rows), ExpenseInsights(schema, rows), ProfitInsights(schema, rows), MonthInsights(schema, rows);
    RevenueBlockShape(schema, rows);
    ExpenseBlockShape(schema, rows);
    ProfitBlockShape(schema, rows);
    MonthBlock(schema, rows);
    BlocksInOrder(r, e, p, m);
    if InsightsOf(schema, rows).Success? {
      assert InsightsOf(schema, rows).value == r + e + p + m;
    }
  }

  /** A successful insight list is the four blocks one after the other. */
  lemma SuccessBlocks(schema: Schema, rows: seq<Row>)
    requires Analysable(schema, rows) && InsightsOf(schema, rows).Success?
    ensures Groupable(schema, rows)
    ensures DateColumn in schema ==> RevenueColumn in schema
    ensures InsightsOf(schema, rows).value ==
      RevenueInsights(schema, rows) + ExpenseInsights(schema, rows) + ProfitInsights(schema, rows) + MonthInsights(schema, rows)
    ensures AllRank(RevenueInsights(schema, rows), 0) && AllRank(ExpenseInsights(schema, rows), 1)
    ensures AllRank(ProfitInsights(schema, rows), 2) && AllRank(MonthInsights(schema, rows), 3)
  {
    InsightsOfCases(schema, rows);
    RevenueBlockShape(schema, rows);
    ExpenseBlockShape(schema, rows);
    ProfitBlockShape(schema, rows);
    MonthBlock(schema, rows);
  }

  /** A measure's total is in the list exactly when its column is in the table. */
  lemma TotalGating(schema: Schema, rows: seq<Row>, m: Measure)
    requires Analysable(schema, rows) && InsightsOf(schema, rows).Success?
    ensures Total(m, ColumnSum(rows, ColumnOf(m))) in InsightsOf(schema, rows).value <==> ColumnOf(m) in schema
  {
    var x := Total(m, ColumnSum(rows, ColumnOf(m)));
    assert Rank(x) == MeasureRank(m);
    SuccessBlocks(schema, rows);
    var r, e, p, mo := RevenueInsights(schema, rows), ExpenseInsights(schema, rows), ProfitInsights(schema, rows), MonthInsights(schema, rows);
    InRankedBlocks(x, r, e, p, mo);
    match m
    case Revenue => RevenueBlockShape(schema, rows);
    case Expense => ExpenseBlockShape(schema, rows);
    case Profit => ProfitBlockShape(schema, rows);
  }

  /** The growth entry is in the list exactly when there are `Revenue` and `Date` columns. */
  lemma GrowthGating(schema: Schema, rows: seq<Row>)
    requires Analysable(schema, rows) && InsightsOf(schema, rows).Success?
    ensures RevenueGrowth(GrowthOf(rows)) in InsightsOf(schema, rows).value <==> RevenueColumn in schema && DateColumn in schema
  {
    var x := RevenueGrowth(GrowthOf(rows));
    assert Rank(x) == 0;
    SuccessBlocks(schema, rows);
    var r, e, p, m := RevenueInsights(schema, rows), ExpenseInsights(schema, rows), ProfitInsights(schema, rows), MonthInsights(schema, rows);
    InRankedBlocks(x, r, e, p, m);
    RevenueBlockShape(schema, rows);
  }

  /**
   * A top-category entry is in the list exactly when there are `Expense` and `Category` columns,
   * and it names the category with the largest Expense sum.
   */
  lemma TopCategoryGating(schema: Schema, rows: seq<Row>)
    requires Analysable(schema, rows) && InsightsOf(schema, rows).Success?
    ensures (exists x | x in InsightsOf(schema, rows).value :: x.TopExpenseCategory?) <==>
      ExpenseColumn in schema && CategoryColumn in schema
    ensures forall x | x in InsightsOf(schema, rows).value && x.TopExpenseCategory? ::
      && KeyPresent(rows, CategoryColumn)
      && x == TopExpenseCategory(TopCategoryOf(rows))
  {
    SuccessBlocks(schema, rows);
    ExpenseBlockShape(schema, rows);
    var r, e, p, m := RevenueInsights(schema, rows), ExpenseInsights(schema, rows), ProfitInsights(schema, rows), MonthInsights(schema, rows);
    forall x: Insight | x in r + e + p + m && x.TopExpenseCategory? ensures x in e {
      InRankedBlocks(x, r, e, p, m);
    }
    if ExpenseColumn in schema && CategoryColumn in schema {
      var x :| x in e && x.TopExpenseCategory?;
      assert x in r + e + p + m;
    }
  }

  /** The margin entry is in the list exactly when there is a `Profit` column. */
  lemma MarginGating(schema: Schema, rows: seq<Row>)
    requires Analysable(schema, rows) && InsightsOf(schema, rows).Success?
    ensures MarginOf(schema, rows) in InsightsOf(schema, rows).value <==> ProfitColumn in schema
  {
    var x := MarginOf(schema, rows);
    assert Rank(x) == 2;
    SuccessBlocks(schema, rows);
    InRankedBlocks(x, RevenueInsights(schema, rows), ExpenseInsights(schema, rows),
      ProfitInsights(schema, rows), MonthInsights(schema, rows));
    ProfitBlockShape(schema, rows);
  }

  /** The best-month entry is in the list exactly when there is a `Date` column. */
  lemma BestMonthGating(schema: Schema, rows: seq<Row>)
    requires Analysable(schema, rows) && InsightsOf(schema, rows).Success?
    ensures HighestRevenueMonth(BestMonthOf(rows)) in InsightsOf(schema, rows).value <==> DateColumn in schema
  {
    var x := HighestRevenueMonth(BestMonthOf(rows));
    assert Rank(x) == 3;
    SuccessBlocks(schema, rows);
    var r, e, p, m := RevenueInsights(schema, rows), ExpenseInsights(schema, rows), ProfitInsights(schema, rows), MonthInsights(schema, rows);
    InRankedBlocks(x, r, e, p, m);
    MonthBlock(schema, rows);
  }
}
