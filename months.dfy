/** The `Month` column both analysis steps derive from `Date`, and the revenue of one month. */
module Months {
  import opened Wrappers
  import opened Dates
  import opened Tables

  predicate ValidDates(rows: seq<Row>) {
    forall i | 0 <= i < |rows| :: ValidDate(DateKey(rows[i]))
  }

  predicate AllDated(rows: seq<Row>) {
    forall i | 0 <= i < |rows| :: Dated(rows[i])
  }

  /** The text `str()` gives a missing period. */
  const NotATime: string := "NaT"

  /** A row's month as "YYYY-MM" text, or "NaT" when the row has no date. */
  function MonthText(row: Row): Value
    requires ValidDate(DateKey(row))
  {
    if Dated(row) then Text(MonthLabel(MonthOf(DateKey(row)))) else Text(NotATime)
  }

  /** Two month texts are equal exactly when both rows are undated or both are dated in the same month. */
  lemma MonthTextFacts(a: Row, b: Row)
    requires ValidDate(DateKey(a)) && ValidDate(DateKey(b))
    ensures Dated(a) ==> MonthText(a).Text? && ParseMonthLabel(MonthText(a).text) == Some(MonthOf(DateKey(a)))
    ensures !Dated(a) ==> MonthText(a) == Text(NotATime)
    ensures Dated(a) && Dated(b) ==> (MonthText(a) == MonthText(b) <==> MonthOf(DateKey(a)) == MonthOf(DateKey(b)))
    ensures Dated(a) && !Dated(b) ==> MonthText(a) != MonthText(b)
  {
    if Dated(a) {
      MonthLabelRoundTrip(MonthOf(DateKey(a)));
      if Dated(b) {
        MonthLabelInjective(MonthOf(DateKey(a)), MonthOf(DateKey(b)));
      } else {
        assert |MonthText(a).text| != |MonthText(b).text|;
      }
    }
  }

  lemma MonthTextsFacts(rows: seq<Row>, cells: seq<Value>)
    requires ValidDates(rows) && |cells| == |rows|
    requires forall i | 0 <= i < |rows| :: cells[i] == MonthText(rows[i])
    ensures forall i | 0 <= i < |rows| && Dated(rows[i]) :: cells[i].Text? && ParseMonthLabel(cells[i].text) == Some(MonthOf(DateKey(rows[i])))
    ensures forall i | 0 <= i < |rows| && !Dated(rows[i]) :: cells[i] == Text(NotATime)
    ensures forall i, j | 0 <= i < |rows| && 0 <= j < |rows| && Dated(rows[i]) && Dated(rows[j]) ::
      cells[i] == cells[j] <==> MonthOf(DateKey(rows[i])) == MonthOf(DateKey(rows[j]))
    ensures forall i, j | 0 <= i < |rows| && 0 <= j < |rows| && Dated(rows[i]) && !Dated(rows[j]) :: cells[i] != cells[j]
  {
    forall i, j | 0 <= i < |rows| && 0 <= j < |rows| {
      MonthTextFacts(rows[i], rows[j]);
    }
  }

  /** The distinct month texts: one per month in which a row is dated, and "NaT" when some row has none. */
  lemma MonthTextSet(rows: seq<Row>, cells: seq<Value>)
    requires ValidDates(rows) && |cells| == |rows|
    requires forall i | 0 <= i < |rows| :: cells[i] == MonthText(rows[i])
    ensures (set i | 0 <= i < |rows| :: cells[i]) ==
      (set m | m in MonthsOf(rows) :: Text(MonthLabel(m))) + (if AllDated(rows) then {} else {Text(NotATime)})
  {
    var dated := set m | m in MonthsOf(rows) :: Text(MonthLabel(m));
    var undated: set<Value> := if AllDated(rows) then {} else {Text(NotATime)};
    forall v | v in (set i | 0 <= i < |rows| :: cells[i]) ensures v in dated + undated {
      var i :| 0 <= i < |rows| && cells[i] == v;
      if Dated(rows[i]) {
        assert MonthOf(DateKey(rows[i])) in MonthsOf(rows);
      }
    }
    forall m | m in MonthsOf(rows) ensures Text(MonthLabel(m)) in (set i | 0 <= i < |rows| :: cells[i]) {
      var i :| 0 <= i < |rows| && Dated(rows[i]) && MonthOf(DateKey(rows[i])) == m;
      assert cells[i] == Text(MonthLabel(m));
    }
    if !AllDated(rows) {
      var i :| 0 <= i < |rows| && !Dated(rows[i]);
      assert cells[i] == Text(NotATime);
    }
  }

  /**
   * Each row's month as text (`dt.to_period('M').astype(str)`): a dated row's cell reads back as the
   * row's month, an undated row's cell is "NaT", and two dated rows share a cell exactly when they
   * share a month.
   */
  function MonthLabels(rows: seq<Row>): (cells: seq<Value>)
    requires ValidDates(rows)
    ensures |cells| == |rows|
    ensures forall i | 0 <= i < |rows| :: HasKind(cells[i], Nominal)
    ensures forall i | 0 <= i < |rows| && Dated(rows[i]) :: cells[i].Text? && ParseMonthLabel(cells[i].text) == Some(MonthOf(DateKey(rows[i])))
    ensures forall i | 0 <= i < |rows| && !Dated(rows[i]) :: cells[i] == Text(NotATime)
    ensures forall i, j | 0 <= i < |rows| && 0 <= j < |rows| && Dated(rows[i]) && Dated(rows[j]) ::
      cells[i] == cells[j] <==> MonthOf(DateKey(rows[i])) == MonthOf(DateKey(rows[j]))
    ensures forall i, j | 0 <= i < |rows| && 0 <= j < |rows| && Dated(rows[i]) && !Dated(rows[j]) :: cells[i] != cells[j]
  {
    var cells := seq(|rows|, i requires 0 <= i < |rows| => MonthText(rows[i]));
    MonthTextsFacts(rows, cells);
    cells
  }

  /** Each row's month as a monthly period value; two rows share a cell exactly when they share a month. */
  function MonthPeriods(rows: seq<Row>): (cells: seq<Value>)
    ensures |cells| == |rows|
    ensures forall i | 0 <= i < |rows| :: HasKind(cells[i], MonthPeriod)
    ensures forall i, j | 0 <= i < |rows| && 0 <= j < |rows| ::
      cells[i] == cells[j] <==> MonthOf(DateKey(rows[i])) == MonthOf(DateKey(rows[j]))
  {
    seq(|rows|, i requires 0 <= i < |rows| => Period(MonthOf(DateKey(rows[i]))))
  }

  /** The months the dated rows fall in. */
  function MonthsOf(rows: seq<Row>): set<YearMonth> {
    set i | 0 <= i < |rows| && Dated(rows[i]) :: MonthOf(DateKey(rows[i]))
  }

  /** Reference definition: the total `Revenue` of the rows dated in month `m`. */
  function MonthRevenue(rows: seq<Row>, m: YearMonth): int {
    if rows == [] then 0
    else
      var last := rows[|rows| - 1];
      MonthRevenue(rows[..|rows| - 1], m) + (if Dated(last) && MonthOf(DateKey(last)) == m then Amount(last, RevenueColumn) else 0)
  }

  /** Reference definition: the total `Revenue` of the rows without a date. */
  function UndatedRevenue(rows: seq<Row>): int {
    if rows == [] then 0
    else
      var last := rows[|rows| - 1];
      UndatedRevenue(rows[..|rows| - 1]) + (if Dated(last) then 0 else Amount(last, RevenueColumn))
  }

  /**
   * Summing `Revenue` over the rows whose new `Month` cell is `key` is summing it over the rows dated
   * in `m`, provided the cell is `key` exactly for those rows.
   */
  lemma {:induction false} MonthColumnRevenue(rows: seq<Row>, cells: seq<Value>, key: Value, m: YearMonth)
    requires |cells| == |rows|
    requires forall i | 0 <= i < |rows| :: cells[i] == key <==> Dated(rows[i]) && MonthOf(DateKey(rows[i])) == m
    ensures SumWhere(WithColumn(rows, MonthColumn, cells), MonthColumn, key, RevenueColumn) == MonthRevenue(rows, m)
  {
    if rows != [] {
      var n := |rows| - 1;
      var w := WithColumn(rows, MonthColumn, cells);
      assert w[..n] == WithColumn(rows[..n], MonthColumn, cells[..n]);
      MonthColumnRevenue(rows[..n], cells[..n], key, m);
      assert Cell(w[n], MonthColumn) == Some(cells[n]);
      assert Amount(w[n], RevenueColumn) == Amount(rows[n], RevenueColumn);
    }
  }

  /**
   * Summing `Revenue` over the rows whose new `Month` cell is `key` is summing it over the undated
   * rows, provided the cell is `key` exactly for those rows.
   */
  lemma {:induction false} UndatedColumnRevenue(rows: seq<Row>, cells: seq<Value>, key: Value)
    requires |cells| == |rows|
    requires forall i | 0 <= i < |rows| :: cells[i] == key <==> !Dated(rows[i])
    ensures SumWhere(WithColumn(rows, MonthColumn, cells), MonthColumn, key, RevenueColumn) == UndatedRevenue(rows)
  {
    if rows != [] {
      var n := |rows| - 1;
      var w := WithColumn(rows, MonthColumn, cells);
      assert w[..n] == WithColumn(rows[..n], MonthColumn, cells[..n]);
      UndatedColumnRevenue(rows[..n], cells[..n], key);
      assert Cell(w[n], MonthColumn) == Some(cells[n]);
      assert Amount(w[n], RevenueColumn) == Amount(rows[n], RevenueColumn);
    }
  }

  /** The values of the new `Month` column are exactly the given cells. */
  lemma MonthColumnValues(rows: seq<Row>, cells: seq<Value>)
    requires |cells| == |rows|
    ensures ColumnValues(WithColumn(rows, MonthColumn, cells), MonthColumn) == set i | 0 <= i < |rows| :: cells[i]
    ensures KeyPresent(WithColumn(rows, MonthColumn, cells), MonthColumn)
  {
    var w := WithColumn(rows, MonthColumn, cells);
    forall v | v in ColumnValues(w, MonthColumn) ensures v in set i | 0 <= i < |rows| :: cells[i] {
      var i :| 0 <= i < |w| && Cell(w[i], MonthColumn).Some? && Cell(w[i], MonthColumn).value == v;
      assert cells[i] == v;
    }
    forall v | v in (set i | 0 <= i < |rows| :: cells[i]) ensures v in ColumnValues(w, MonthColumn) {
      var i :| 0 <= i < |rows| && cells[i] == v;
      assert Cell(w[i], MonthColumn) == Some(v);
    }
  }

  /** Setting `Month` does not change any other column's total. */
  lemma WithMonthColumnSum(rows: seq<Row>, cells: seq<Value>, col: string)
    requires |cells| == |rows| && col != MonthColumn
    ensures ColumnSum(WithColumn(rows, MonthColumn, cells), col) == ColumnSum(rows, col)
  {
    assert Amounts(WithColumn(rows, MonthColumn, cells), col) == Amounts(rows, col);
  }
}
