/**
 * The in-memory table the pipeline works on: a schema (each column with the dtype pandas
 * inferred for it) and an ordered sequence of rows, each a map from column name to a cell
 * that may be missing.
 */
module Tables {
  import opened Wrappers
  import opened Dates
  import opened Aggregates

  /** A cell value. Amounts are integer cents; dates are already parsed. */
  datatype Value = Num(amount: int) | Text(text: string) | When(date: Date) | Period(month: YearMonth)

  /** The dtype of a column: number, object (text), datetime64 or monthly period. */
  datatype Kind = Numeric | Nominal | DateTime | MonthPeriod

  type Row = map<string, Option<Value>>
  type Schema = map<string, Kind>

  /** The column names the pipeline recognises; every other column is carried along untouched. */
  const DateColumn: string := "Date"
  const RevenueColumn: string := "Revenue"
  const ExpenseColumn: string := "Expense"
  const ProfitColumn: string := "Profit"
  const CategoryColumn: string := "Category"
  const MonthColumn: string := "Month"

  predicate HasKind(v: Value, k: Kind) {
    match v
    case Num(_) => k == Numeric
    case Text(_) => k == Nominal
    case When(d) => k == DateTime && ValidDate(d)
    case Period(_) => k == MonthPeriod
  }

  /** A row has exactly the schema's columns, and each present cell has its column's dtype. */
  predicate FitsSchema(schema: Schema, row: Row) {
    && row.Keys == schema.Keys
    && forall c | c in row && row[c].Some? :: HasKind(row[c].value, schema[c])
  }

  /** The recognised columns have the dtypes the pipeline uses them with. */
  predicate KnownKinds(schema: Schema) {
    && (DateColumn in schema ==> schema[DateColumn] == DateTime)
    && (RevenueColumn in schema ==> schema[RevenueColumn] == Numeric)
    && (ExpenseColumn in schema ==> schema[ExpenseColumn] == Numeric)
    && (ProfitColumn in schema ==> schema[ProfitColumn] == Numeric)
  }

  /** Writing the `Month` column leaves the dtypes of the known columns alone. */
  lemma MonthColumnKeepsKinds(schema: Schema, kind: Kind)
    requires KnownKinds(schema)
    ensures KnownKinds(schema[MonthColumn := kind])
  {
  }

  predicate WellFormed(schema: Schema, rows: seq<Row>) {
    KnownKinds(schema) && forall i | 0 <= i < |rows| :: FitsSchema(schema, rows[i])
  }

  /** No cell of the row is missing. */
  predicate Complete(row: Row) {
    forall c | c in row :: row[c].Some?
  }

  predicate AllComplete(rows: seq<Row>) {
    forall i | 0 <= i < |rows| :: Complete(rows[i])
  }

  function Cell(row: Row, col: string): Option<Value> {
    if col in row then row[col] else None
  }

  /** The numeric amount of a cell; a missing cell adds nothing, as pandas skips NaN in sums. */
  function Amount(row: Row, col: string): int {
    match Cell(row, col)
    case Some(Num(n)) => n
    case _ => 0
  }

  /** Whether a row holds a `Date` (pandas: the cell is not `NaT`). */
  predicate Dated(row: Row) {
    Cell(row, DateColumn).Some? && Cell(row, DateColumn).value.When?
  }

  /** The `Date` of a row; a placeholder 1970-01-01 for a row that is not `Dated`. */
  function DateKey(row: Row): Date {
    match Cell(row, DateColumn)
    case Some(When(d)) => d
    case _ => Date(1970, 1, 1)
  }

  /** `df[col]` as a list of amounts. */
  function Amounts(rows: seq<Row>, col: string): (xs: seq<int>)
    ensures |xs| == |rows|
  {
    seq(|rows|, i requires 0 <= i < |rows| => Amount(rows[i], col))
  }

  /** The total of a column. */
  function ColumnSum(rows: seq<Row>, col: string): int {
    Sum(Amounts(rows, col))
  }

  /** The distinct values present in a column. */
  function ColumnValues(rows: seq<Row>, col: string): set<Value> {
    set i | 0 <= i < |rows| && Cell(rows[i], col).Some? :: Cell(rows[i], col).value
  }

  predicate KeyPresent(rows: seq<Row>, col: string) {
    forall i | 0 <= i < |rows| :: Cell(rows[i], col).Some?
  }

  /** The (key, amount) pairs `groupby(keyCol)[valCol]` works on; rows whose key is missing are dropped. */
  function Entries(rows: seq<Row>, keyCol: string, valCol: string): seq<(Value, int)> {
    if rows == [] then []
    else
      var last := rows[|rows| - 1];
      Entries(rows[..|rows| - 1], keyCol, valCol)
      + match Cell(last, keyCol) case Some(k) => [(k, Amount(last, valCol))] case None => []
  }

  /** `valCol` summed per distinct value of `keyCol`. */
  function GroupBy(rows: seq<Row>, keyCol: string, valCol: string): seq<Group<Value>> {
    GroupSums(Entries(rows, keyCol, valCol))
  }

  /** Reference definition: the sum of `valCol` over the rows whose `keyCol` cell holds `k`. */
  function SumWhere(rows: seq<Row>, keyCol: string, k: Value, valCol: string): int {
    if rows == [] then 0
    else
      var last := rows[|rows| - 1];
      SumWhere(rows[..|rows| - 1], keyCol, k, valCol) + (if Cell(last, keyCol) == Some(k) then Amount(last, valCol) else 0)
  }

  /** The entries of `rows` are those of all rows but the last, then the last row's entry if its key is present. */
  lemma EntriesSnoc(rows: seq<Row>, keyCol: string, valCol: string)
    requires rows != []
    ensures var last := rows[|rows| - 1];
      Entries(rows, keyCol, valCol) == Entries(rows[..|rows| - 1], keyCol, valCol)
        + if Cell(last, keyCol).Some? then [(Cell(last, keyCol).value, Amount(last, valCol))] else []
  {
  }

  /** Per key, the entries add up to the rows' sum of `valCol` under that key. */
  lemma {:induction false} EntriesSums(rows: seq<Row>, keyCol: string, valCol: string)
    ensures forall k :: SumFor(Entries(rows, keyCol, valCol), k) == SumWhere(rows, keyCol, k, valCol)
  {
    if rows != [] {
      var init := rows[..|rows| - 1];
      EntriesSums(init, keyCol, valCol);
      EntriesSnoc(rows, keyCol, valCol);
      var ei := Entries(init, keyCol, valCol);
      var e := Entries(rows, keyCol, valCol);
      var last := rows[|rows| - 1];
      forall k ensures SumFor(e, k) == SumWhere(rows, keyCol, k, valCol) {
        if Cell(last, keyCol).Some? {
          assert e[..|e| - 1] == ei;
        } else {
          assert e == ei;
        }
      }
    }
  }

  /** The keys of the entries are the values the key column holds. */
  lemma {:induction false} EntriesKeys(rows: seq<Row>, keyCol: string, valCol: string)
    ensures EntryKeys(Entries(rows, keyCol, valCol)) == ColumnValues(rows, keyCol)
  {
    if rows != [] {
      var init := rows[..|rows| - 1];
      var last := rows[|rows| - 1];
      EntriesKeys(init, keyCol, valCol);
      EntriesSnoc(rows, keyCol, valCol);
      var ei := Entries(init, keyCol, valCol);
      var e := Entries(rows, keyCol, valCol);
      var tail := e[|ei|..];
      assert e == ei + tail;
      forall v | v in EntryKeys(e) ensures v in ColumnValues(rows, keyCol) {
        var p :| p in e && p.0 == v;
        if p in ei {
          assert v in EntryKeys(ei);
          var i :| 0 <= i < |init| && Cell(init[i], keyCol).Some? && Cell(init[i], keyCol).value == v;
          assert init[i] == rows[i];
        } else {
          assert p in tail;
          assert Cell(rows[|rows| - 1], keyCol) == Some(v);
        }
      }
      forall v | v in ColumnValues(rows, keyCol) ensures v in EntryKeys(e) {
        var i :| 0 <= i < |rows| && Cell(rows[i], keyCol).Some? && Cell(rows[i], keyCol).value == v;
        if i < |init| {
          assert init[i] == rows[i];
          assert v in ColumnValues(init, keyCol);
          var p :| p in ei && p.0 == v;
          assert p in e;
        } else {
          assert e[|e| - 1] == (v, Amount(last, valCol));
        }
      }
    }
  }

  /** When no key is missing, the entries carry every row's amount, in row order. */
  lemma {:induction false} EntriesAmounts(rows: seq<Row>, keyCol: string, valCol: string)
    requires KeyPresent(rows, keyCol)
    ensures EntryAmounts(Entries(rows, keyCol, valCol)) == Amounts(rows, valCol)
  {
    if rows != [] {
      var init := rows[..|rows| - 1];
      var last := rows[|rows| - 1];
      assert KeyPresent(init, keyCol) by {
        forall i | 0 <= i < |init| ensures Cell(init[i], keyCol).Some? {
          assert init[i] == rows[i];
        }
      }
      EntriesAmounts(init, keyCol, valCol);
      EntriesSnoc(rows, keyCol, valCol);
      var ei := Entries(init, keyCol, valCol);
      var e := Entries(rows, keyCol, valCol);
      assert Cell(last, keyCol).Some?;
      assert e == ei + [(Cell(last, keyCol).value, Amount(last, valCol))];
      assert EntryAmounts(e) == EntryAmounts(ei) + [Amount(last, valCol)];
      assert Amounts(rows, valCol) == Amounts(init, valCol) + [Amount(last, valCol)];
    }
  }

  /**
   * `groupby(keyCol)[valCol].sum()` has one group per distinct value of `keyCol`, each holding the
   * sum of `valCol` over that value's rows; when no key is missing the totals add up to `df[valCol].sum()`.
   */
  lemma GroupByCorrect(rows: seq<Row>, keyCol: string, valCol: string)
    ensures var gs := GroupBy(rows, keyCol, valCol);
      && DistinctKeys(gs)
      && KeysOf(gs) == ColumnValues(rows, keyCol)
      && (forall i | 0 <= i < |gs| :: gs[i].total == SumWhere(rows, keyCol, gs[i].key, valCol))
      && (KeyPresent(rows, keyCol) ==> GroupTotal(gs) == ColumnSum(rows, valCol))
  {
    var entries := Entries(rows, keyCol, valCol);
    GroupSumsCorrect(entries);
    EntriesSums(rows, keyCol, valCol);
    EntriesKeys(rows, keyCol, valCol);
    if KeyPresent(rows, keyCol) {
      EntriesAmounts(rows, keyCol, valCol);
    }
  }

  /**
   * `idxmax` over `groupby(keyCol)[valCol].sum()` names a value of the column whose summed `valCol`
   * is no smaller than that of any value of the column.
   */
  lemma TopGroupDominates(rows: seq<Row>, keyCol: string, valCol: string, k: Value)
    requires k in ColumnValues(rows, keyCol)
    ensures |GroupBy(rows, keyCol, valCol)| > 0
    ensures var gs := GroupBy(rows, keyCol, valCol);
      var top := gs[ArgMax(gs)].key;
      top in ColumnValues(rows, keyCol) && SumWhere(rows, keyCol, k, valCol) <= SumWhere(rows, keyCol, top, valCol)
  {
    var entries := Entries(rows, keyCol, valCol);
    EntriesSums(rows, keyCol, valCol);
    EntriesKeys(rows, keyCol, valCol);
    TopKeyDominates(entries, k);
    var gs := GroupBy(rows, keyCol, valCol);
    var top := gs[ArgMax(gs)].key;
    assert SumFor(entries, k) == SumWhere(rows, keyCol, k, valCol);
    assert SumFor(entries, top) == SumWhere(rows, keyCol, top, valCol);
  }

  /** `df[name] = cells`: every row gets `name` set to its cell; other columns are untouched. */
  function WithColumn(rows: seq<Row>, name: string, cells: seq<Value>): (r: seq<Row>)
    requires |cells| == |rows|
    ensures |r| == |rows|
  {
    seq(|rows|, i requires 0 <= i < |rows| => rows[i][name := Some(cells[i])])
  }

  /** Setting a column changes that column alone, in every row, and keeps the rows in place. */
  lemma WithColumnCells(rows: seq<Row>, name: string, cells: seq<Value>)
    requires |cells| == |rows|
    ensures forall i | 0 <= i < |rows| :: Cell(WithColumn(rows, name, cells)[i], name) == Some(cells[i])
    ensures forall i, c | 0 <= i < |rows| && c != name :: Cell(WithColumn(rows, name, cells)[i], c) == Cell(rows[i], c)
  {
  }

  lemma WithColumnWellFormed(schema: Schema, rows: seq<Row>, name: string, kind: Kind, cells: seq<Value>)
    requires WellFormed(schema, rows) && KnownKinds(schema[name := kind])
    requires |cells| == |rows| && forall i | 0 <= i < |cells| :: HasKind(cells[i], kind)
    ensures WellFormed(schema[name := kind], WithColumn(rows, name, cells))
    ensures AllComplete(rows) ==> AllComplete(WithColumn(rows, name, cells))
  {
    var r := WithColumn(rows, name, cells);
    var s := schema[name := kind];
    forall i | 0 <= i < |r| ensures FitsSchema(s, r[i]) {
      assert FitsSchema(schema, rows[i]);
    }
  }

  /** In a well-formed table every row's `Date` key is a valid calendar date. */
  lemma DateKeysValid(schema: Schema, rows: seq<Row>)
    requires WellFormed(schema, rows)
    ensures forall i | 0 <= i < |rows| :: ValidDate(DateKey(rows[i]))
  {
    forall i | 0 <= i < |rows| ensures ValidDate(DateKey(rows[i])) {
      assert FitsSchema(schema, rows[i]);
    }
  }
}
