/** Sorting the rows of a table by `Date`: the rows in chronological order. */
module Sorting {
  import opened Dates
  import opened Tables

  /** Rows in non-decreasing order of `Date`. */
  predicate SortedByDate(rows: seq<Row>) {
    forall i, j | 0 <= i < j < |rows| :: DateLe(DateKey(rows[i]), DateKey(rows[j]))
  }

  lemma DateLeTotal(a: Date, b: Date)
    ensures DateLe(a, b) || DateLe(b, a)
  {
  }

  lemma DateLeTransitive(a: Date, b: Date, c: Date)
    requires DateLe(a, b) && DateLe(b, c)
    ensures DateLe(a, c)
  {
  }

  /** A row no later than the head of a sorted sequence can go in front of it. */
  lemma PrependSorted(row: Row, sorted: seq<Row>)
    requires SortedByDate(sorted) && sorted != [] && DateLe(DateKey(row), DateKey(sorted[0]))
    ensures SortedByDate([row] + sorted)
  {
    var r := [row] + sorted;
    forall i, j | 0 <= i < j < |r| ensures DateLe(DateKey(r[i]), DateKey(r[j])) {
      if i == 0 && j > 1 {
        DateLeTransitive(DateKey(row), DateKey(sorted[0]), DateKey(sorted[j - 1]));
      }
    }
  }

  /** The head of a sorted sequence stays in front when a later row is inserted into its tail. */
  lemma PrependHead(sorted: seq<Row>, row: Row, tail: seq<Row>)
    requires SortedByDate(sorted) && sorted != [] && !DateLe(DateKey(row), DateKey(sorted[0]))
    requires SortedByDate(tail) && multiset(tail) == multiset(sorted[1..]) + multiset{row}
    ensures SortedByDate([sorted[0]] + tail)
  {
    var r := [sorted[0]] + tail;
    forall j | 0 < j < |r| ensures DateLe(DateKey(sorted[0]), DateKey(r[j])) {
      assert r[j] == tail[j - 1];
      assert tail[j - 1] in multiset(tail);
      if r[j] == row {
        DateLeTotal(DateKey(row), DateKey(sorted[0]));
      } else {
        assert r[j] in multiset(sorted[1..]);
        var k :| 0 <= k < |sorted[1..]| && sorted[1..][k] == r[j];
        assert sorted[k + 1] == r[j];
      }
    }
    forall i, j | 0 <= i < j < |r| ensures DateLe(DateKey(r[i]), DateKey(r[j])) {
      if i > 0 {
        assert r[i] == tail[i - 1] && r[j] == tail[j - 1];
      }
    }
  }

  function InsertByDate(row: Row, sorted: seq<Row>): (r: seq<Row>)
    requires SortedByDate(sorted)
    ensures SortedByDate(r)
    ensures multiset(r) == multiset(sorted) + multiset{row}
  {
    if sorted == [] then [row]
    else if DateLe(DateKey(row), DateKey(sorted[0])) then
      PrependSorted(row, sorted);
      [row] + sorted
    else
      assert SortedByDate(sorted[1..]) by {
        forall i, j | 0 <= i < j < |sorted| - 1 ensures DateLe(DateKey(sorted[1..][i]), DateKey(sorted[1..][j])) {
          assert sorted[1..][i] == sorted[i + 1] && sorted[1..][j] == sorted[j + 1];
        }
      }
      var tail := InsertByDate(row, sorted[1..]);
      PrependHead(sorted, row, tail);
      assert sorted == [sorted[0]] + sorted[1..];
      [sorted[0]] + tail
  }

  /**
   * The rows sorted by `Date`: in non-decreasing date order and a permutation of the input.
   * pandas' default sort is not stable, so nothing is promised about rows with equal dates.
   */
  function SortRowsByDate(rows: seq<Row>): (r: seq<Row>)
    ensures SortedByDate(r)
    ensures multiset(r) == multiset(rows)
  {
    if rows == [] then []
    else
      assert rows == [rows[0]] + rows[1..];
      InsertByDate(rows[0], SortRowsByDate(rows[1..]))
  }

  /** A row of a sorted sequence lies, by date, between its first and last rows. */
  lemma BetweenEnds(s: seq<Row>, k: nat)
    requires SortedByDate(s) && k < |s|
    ensures DateLe(DateKey(s[0]), DateKey(s[k])) && DateLe(DateKey(s[k]), DateKey(s[|s| - 1]))
  {
  }

  /** Sorting keeps the number of rows and the set of rows. */
  lemma SortKeepsRows(rows: seq<Row>)
    ensures |SortRowsByDate(rows)| == |rows|
    ensures forall r :: r in SortRowsByDate(rows) <==> r in rows
  {
    var s := SortRowsByDate(rows);
    assert |s| == |multiset(s)|;
    assert |rows| == |multiset(rows)|;
    forall r ensures r in s <==> r in rows {
      assert r in s <==> r in multiset(s);
      assert r in rows <==> r in multiset(rows);
    }
  }

  /** The first row after sorting has the earliest date and the last row the latest. */
  lemma FirstAndLastByDate(rows: seq<Row>)
    requires |rows| > 0
    ensures var s := SortRowsByDate(rows);
      && |s| == |rows|
      && s[0] in rows && s[|s| - 1] in rows
      && forall r | r in rows :: DateLe(DateKey(s[0]), DateKey(r)) && DateLe(DateKey(r), DateKey(s[|s| - 1]))
  {
    var s := SortRowsByDate(rows);
    SortKeepsRows(rows);
    assert s[0] in s && s[|s| - 1] in s;
    forall r | r in rows ensures DateLe(DateKey(s[0]), DateKey(r)) && DateLe(DateKey(r), DateKey(s[|s| - 1])) {
      var k :| 0 <= k < |s| && s[k] == r;
      BetweenEnds(s, k);
    }
  }

  /** Sorting keeps the table well-formed. */
  lemma SortRowsWellFormed(schema: Schema, rows: seq<Row>)
    requires WellFormed(schema, rows)
    ensures WellFormed(schema, SortRowsByDate(rows))
    ensures AllComplete(rows) ==> AllComplete(SortRowsByDate(rows))
  {
    var s := SortRowsByDate(rows);
    forall i | 0 <= i < |s| ensures FitsSchema(schema, s[i]) && (AllComplete(rows) ==> Complete(s[i])) {
      assert s[i] in multiset(rows);
      var j :| 0 <= j < |rows| && rows[j] == s[i];
    }
  }
}
