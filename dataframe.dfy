/** The pandas DataFrame the pipeline mutates in place, with the three operations it applies to it. */
module DataFrames {
  import opened Tables
  import opened Cleaning
  import opened Sorting

  class DataFrame {
    var schema: Schema
    var rows: seq<Row>

    ghost predicate Valid()
      reads this
    {
      WellFormed(schema, rows)
    }

    /** A frame as `pd.read_csv` leaves it: parsing itself is not part of this model. */
    constructor (schema: Schema, rows: seq<Row>)
      requires WellFormed(schema, rows)
      ensures Valid()
      ensures this.schema == schema && this.rows == rows
    {
      this.schema := schema;
      this.rows := rows;
    }

    /** In-place drop of every row with a missing cell in any column. */
    method DropNa()
      requires Valid()
      modifies this
      ensures Valid()
      ensures schema == old(schema)
      ensures rows == CompleteRows(old(rows))
    {
      CompleteRowsWellFormed(schema, rows);
      rows := CompleteRows(rows);
    }

    /** In-place sort of the rows by `Date`; a frame without a `Date` column cannot be sorted, so callers check first. */
    method SortValuesByDate()
      requires Valid() && DateColumn in schema
      modifies this
      ensures Valid()
      ensures schema == old(schema)
      ensures rows == SortRowsByDate(old(rows))
      ensures AllComplete(old(rows)) ==> AllComplete(rows)
    {
      SortRowsWellFormed(schema, rows);
      rows := SortRowsByDate(rows);
    }

    /** `df[name] = cells`: adds the column, or overwrites it together with its dtype. */
    method SetColumn(name: string, kind: Kind, cells: seq<Value>)
      requires Valid() && KnownKinds(schema[name := kind])
      requires |cells| == |rows| && forall i | 0 <= i < |cells| :: HasKind(cells[i], kind)
      modifies this
      ensures Valid()
      ensures schema == old(schema)[name := kind]
      ensures rows == WithColumn(old(rows), name, cells)
      ensures AllComplete(old(rows)) ==> AllComplete(rows)
    {
      WithColumnWellFormed(schema, rows, name, kind, cells);
      schema := schema[name := kind];
      rows := WithColumn(rows, name, cells);
    }
  }
}
