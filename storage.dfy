/**
 * The embedded database as the mapper sees it.  SQL semantics are not
 * modelled: the database answers every request through two arbitrary
 * reply functions, so nothing is assumed about what it stores.  It
 * records the requests it receives and the cursors it hands out.
 */
module Storage {
  import opened Wrappers
  import opened Reflection

  /** One result row: what Cursor.getString and Cursor.getInt return for each column name. */
  datatype Row = Row(text: string -> Option<string>, number: string -> Int32)

  /** The calls the mapper makes on SQLiteDatabase, with the arguments it passes. */
  datatype Request =
    | InsertRequest(table: Option<string>, nullColumnHack: Option<string>, values: map<string, string>)
    | UpdateRequest(table: Option<string>, values: map<string, string>, whereClause: string)
    | DeleteRequest(table: Option<string>, whereClause: string)
    | QueryRequest(table: Option<string>, columns: seq<string>, selection: Option<string>)

  /** A result cursor: rows, a position (-1 before the first row, |rows| after the last) and an open flag. */
  class Cursor {
    const rows: seq<Row>
    var position: int
    var closed: bool

    predicate Valid()
      reads this
    {
      -1 <= position <= |rows|
    }

    predicate OnRow()
      reads this
    {
      0 <= position < |rows|
    }

    constructor (rows: seq<Row>)
      ensures this.rows == rows && position == -1 && !closed && Valid()
    {
      this.rows := rows;
      position := -1;
      closed := false;
    }

    /** moveToFirst: goes to row 0 and reports whether there is one. */
    method MoveToFirst() returns (ok: bool)
      requires Valid()
      modifies this`position
      ensures Valid() && position == (if |rows| == 0 then |rows| else 0)
      ensures ok <==> OnRow()
    {
      position := if |rows| == 0 then |rows| else 0;
      ok := position < |rows|;
    }

    /** moveToNext: advances, stopping just after the last row, and reports whether it is on a row. */
    method MoveToNext() returns (ok: bool)
      requires Valid()
      modifies this`position
      ensures Valid() && position == (if old(position) + 1 >= |rows| then |rows| else old(position) + 1)
      ensures ok <==> OnRow()
    {
      position := if position + 1 >= |rows| then |rows| else position + 1;
      ok := position < |rows|;
    }

    function Current(): (r: Row)
      reads this
      requires OnRow()
    {
      rows[position]
    }

    /** getString(getColumnIndex(col)) on the current row. */
    function GetString(col: string): (text: Option<string>)
      reads this
      requires OnRow()
    {
      Current().text(col)
    }

    /** getInt(getColumnIndex(col)) on the current row. */
    function GetInt(col: string): (number: Int32)
      reads this
      requires OnRow()
    {
      Current().number(col)
    }

    method Close()
      modifies this`closed
      ensures closed
    {
      closed := true;
    }
  }

  class Database {
    /** What insert (the new row id), update and delete (the affected-row count) report. */
    const changes: Request -> int
    /** The rows a query returns. */
    const results: Request -> seq<Row>
    var log: seq<Request>
    var cursors: seq<Cursor>

    constructor (changes: Request -> int, results: Request -> seq<Row>)
      ensures this.changes == changes && this.results == results && log == [] && cursors == []
    {
      this.changes := changes;
      this.results := results;
      log := [];
      cursors := [];
    }

    method Insert(table: Option<string>, nullColumnHack: Option<string>, values: map<string, string>) returns (rowId: int)
      modifies this`log
      ensures log == old(log) + [InsertRequest(table, nullColumnHack, values)]
      ensures rowId == changes(InsertRequest(table, nullColumnHack, values))
    {
      log := log + [InsertRequest(table, nullColumnHack, values)];
      rowId := changes(InsertRequest(table, nullColumnHack, values));
    }

    method Update(table: Option<string>, values: map<string, string>, whereClause: string) returns (count: int)
      modifies this`log
      ensures log == old(log) + [UpdateRequest(table, values, whereClause)]
      ensures count == changes(UpdateRequest(table, values, whereClause))
    {
      log := log + [UpdateRequest(table, values, whereClause)];
      count := changes(UpdateRequest(table, values, whereClause));
    }

    method Delete(table: Option<string>, whereClause: string) returns (count: int)
      modifies this`log
      ensures log == old(log) + [DeleteRequest(table, whereClause)]
      ensures count == changes(DeleteRequest(table, whereClause))
    {
      log := log + [DeleteRequest(table, whereClause)];
      count := changes(DeleteRequest(table, whereClause));
    }

    method Query(table: Option<string>, columns: seq<string>, selection: Option<string>) returns (c: Cursor)
      modifies this`log, this`cursors
      ensures log == old(log) + [QueryRequest(table, columns, selection)]
      ensures fresh(c) && c.rows == results(QueryRequest(table, columns, selection))
      ensures c.position == -1 && !c.closed && c.Valid()
      ensures cursors == old(cursors) + [c]
    {
      log := log + [QueryRequest(table, columns, selection)];
      c := new Cursor(results(QueryRequest(table, columns, selection)));
      cursors := cursors + [c];
    }
  }
}
