/**
 * The generic mapper BaseDAO: an ordered column list that always starts
 * with "id" and "name", writes that put each column's non-null value,
 * and reads that rebuild an entity through its setters.
 */
module DataBaseDao {
  import opened Wrappers
  import opened Reflection
  import opened Naming
  import Decimal
  import opened Storage
  import opened Mapping
  import opened Entities

  const KeyId: string := "id"
  const KeyName: string := "name"

  /** The columns every table has, in order. */
  const StandardColumns: seq<string> := [KeyId, KeyName]

  /** The selection "id=" + rowIndex used by update, remove and single-row lookup. */
  function WhereId(rowIndex: Int64): (clause: string) {
    KeyId + "=" + Decimal.Render(rowIndex)
  }

  /** Distinct row indices select through distinct clauses, so each clause names one row index. */
  lemma WhereIdInjective(a: Int64, b: Int64)
    ensures WhereId(a) == WhereId(b) <==> a == b
  {
    if WhereId(a) == WhereId(b) {
      assert WhereId(a)[3..] == Decimal.Render(a);
      assert WhereId(b)[3..] == Decimal.Render(b);
      Decimal.RenderInjective(a, b);
    }
  }

  /**
   * Each entity of the list is its own instance inside objs, holding the
   * field map at its position in fields.
   */
  ghost predicate Holds(list: seq<Entity>, fields: seq<map<string, Value>>, objs: set<object>)
    reads objs
  {
    && |list| == |fields|
    && (forall j :: 0 <= j < |list| ==> list[j].Target() in objs)
    && (forall i, j :: 0 <= i < j < |list| ==> list[i].Target() != list[j].Target())
    && forall j :: 0 <= j < |list| ==> list[j].Fields() == fields[j]
  }

  /** The field maps are the first |fields| rows, each rebuilt from a default instance of cls. */
  ghost predicate RebuiltRows(fields: seq<map<string, Value>>, cls: EntityClass, cols: seq<string>, rows: seq<Row>)
    requires NonEmptyNames(cols)
  {
    && |fields| <= |rows|
    && forall j :: 0 <= j < |fields| ==> fields[j] == Populate(MethodsOf(cls), DefaultFieldsOf(cls), cols, rows[j])
  }

  /** Every entity of the list is an instance of cls. */
  predicate OfClass(list: seq<Entity>, cls: EntityClass) {
    forall j :: 0 <= j < |list| ==> list[j].Class() == cls
  }

  lemma HoldsAppend(list: seq<Entity>, fields: seq<map<string, Value>>, objs: set<object>, e: Entity)
    requires Holds(list, fields, objs) && e.Target() !in objs
    ensures Holds(list + [e], fields + [e.Fields()], objs + {e.Target()})
  {
  }

  lemma RebuiltRowsAppend(fields: seq<map<string, Value>>, cls: EntityClass, cols: seq<string>, rows: seq<Row>, f: map<string, Value>)
    requires NonEmptyNames(cols) && RebuiltRows(fields, cls, cols, rows) && |fields| < |rows|
    requires f == Populate(MethodsOf(cls), DefaultFieldsOf(cls), cols, rows[|fields|])
    ensures RebuiltRows(fields + [f], cls, cols, rows)
  {
  }

  lemma HoldsRebuilt(list: seq<Entity>, fields: seq<map<string, Value>>, objs: set<object>, cls: EntityClass, cols: seq<string>, rows: seq<Row>)
    requires NonEmptyNames(cols) && Holds(list, fields, objs) && RebuiltRows(fields, cls, cols, rows)
    ensures forall j :: 0 <= j < |list| ==> list[j].Target() in objs
    ensures forall i, j :: 0 <= i < j < |list| ==> list[i].Target() != list[j].Target()
    ensures forall j :: 0 <= j < |list| ==> list[j].Fields() == Populate(MethodsOf(cls), DefaultFieldsOf(cls), cols, rows[j])
  {
  }

  /** A column list the mapper can work with: the standard prefix, then non-empty names. */
  predicate ColumnsValid(cols: seq<string>) {
    |cols| >= 2 && cols[..2] == StandardColumns && NonEmptyNames(cols)
  }

  class BaseDao {
    /** CLASS_NAME and DATABASE_TABLE: null until a subclass sets them. */
    var className: Option<string>
    var table: Option<string>
    /** COLUMN_NAMES. */
    var columns: seq<string>
    const db: Database
    /** Which reading of the getter return-type test this mapper runs. */
    const returnKindTest: KindTest

    predicate Valid()
      reads this
    {
      ColumnsValid(columns)
    }

    constructor (db: Database, returnKindTest: KindTest)
      ensures Valid() && columns == StandardColumns
      ensures className == None && table == None
      ensures this.db == db && this.returnKindTest == returnKindTest
    {
      this.db := db;
      this.returnKindTest := returnKindTest;
      className := None;
      table := None;
      columns := [];
      new;
      columns := columns + [KeyId];
      columns := columns + [KeyName];
    }

    /** COLUMN_NAMES.add: the list only grows at its end. */
    method AddColumn(name: string)
      requires Valid() && name != []
      modifies this`columns
      ensures Valid() && columns == old(columns) + [name]
    {
      columns := columns + [name];
    }

    /** getValueForColumn. */
    method GetValueForColumn(e: Entity, col: string) returns (value: Option<string>)
      requires col != []
      ensures value == ValueForColumn(e.Methods(), e.Fields(), col, returnKindTest)
    {
      value := None;
      var methodName := GetterName(col);
      var accessor := GetMethod(e.Methods(), methodName, []);
      if accessor.Some? {
        var returnType := ReturnKind(returnKindTest, accessor.value.result);
        if returnType == Some(Text) {
          value := e.Call(accessor.value).text;
        } else if returnType == Some(Int) {
          value := Some(Decimal.Render(e.Call(accessor.value).number));
        }
      }
    }

    /** The loop shared by insertEntry and updateEntry: put every column whose value is not null. */
    method ContentValues(e: Entity) returns (values: map<string, string>)
      requires Valid()
      ensures values == ContentFor(e.Methods(), e.Fields(), columns, returnKindTest)
    {
      ghost var methods, fields := e.Methods(), e.Fields();
      var cols, test := columns, returnKindTest;
      assert NonEmptyNames(cols);
      values := map[];
      var i := 0;
      while i < |cols|
        invariant 0 <= i <= |cols|
        invariant values == ContentFor(methods, fields, cols[..i], test)
      {
        var colName := cols[i];
        var newValue := GetValueForColumn(e, colName);
        ContentForStep(methods, fields, cols, i, test, values, newValue);
        if newValue.Some? {
          values := values[colName := newValue.value];
        }
        i := i + 1;
      }
      assert cols[..i] == cols;
    }

    /** insertEntry: inserts the value set and returns what the insert reports. */
    method InsertEntry(e: Entity) returns (rowId: int)
      requires Valid()
      modifies db`log
      ensures db.log == old(db.log) + [InsertRequest(table, None, ContentFor(e.Methods(), e.Fields(), columns, returnKindTest))]
      ensures rowId == db.changes(InsertRequest(table, None, ContentFor(e.Methods(), e.Fields(), columns, returnKindTest)))
    {
      var newValues := ContentValues(e);
      rowId := db.Insert(table, None, newValues);
    }

    /** updateEntry: updates the row "id=" + rowIndex; true exactly when some row was affected. */
    method UpdateEntry(rowIndex: Int64, e: Entity) returns (ok: bool)
      requires Valid()
      modifies db`log
      ensures db.log == old(db.log) + [UpdateRequest(table, ContentFor(e.Methods(), e.Fields(), columns, returnKindTest), WhereId(rowIndex))]
      ensures ok <==> db.changes(UpdateRequest(table, ContentFor(e.Methods(), e.Fields(), columns, returnKindTest), WhereId(rowIndex))) > 0
    {
      var newValues := ContentValues(e);
      var count := db.Update(table, newValues, WhereId(rowIndex));
      ok := count > 0;
    }

    /** removeEntry: deletes the row "id=" + rowIndex; true exactly when some row was deleted. */
    method RemoveEntry(rowIndex: Int64) returns (ok: bool)
      modifies db`log
      ensures db.log == old(db.log) + [DeleteRequest(table, WhereId(rowIndex))]
      ensures ok <==> db.changes(DeleteRequest(table, WhereId(rowIndex))) > 0
    {
      var count := db.Delete(table, WhereId(rowIndex));
      ok := count > 0;
    }

    /** getAllEntries: a cursor over every row, projected on the columns; the caller closes it. */
    method GetAllEntries() returns (c: Cursor)
      modifies db`log, db`cursors
      ensures db.log == old(db.log) + [QueryRequest(table, columns, None)]
      ensures fresh(c) && c.rows == db.results(QueryRequest(table, columns, None))
      ensures c.position == -1 && !c.closed && c.Valid()
      ensures db.cursors == old(db.cursors) + [c]
    {
      c := db.Query(table, columns, None);
    }

    /**
     * One pass of createObjectFromCursor's loop: the setter the column
     * resolves to, String first, is invoked with the cell read as its
     * parameter type; a column without a setter changes nothing, and a
     * failed invocation is swallowed.
     */
    method SetColumn(objectInstance: Entity, c: Cursor, colName: string)
      requires c.OnRow() && colName != []
      modifies objectInstance.Target()
      ensures objectInstance.Fields() ==
        match ProbeSetter(objectInstance.Methods(), colName)
        case Some(setter) => old(objectInstance.Fields())[setter.field := ReadCell(c.Current(), colName, setter.params[0])]
        case None => old(objectInstance.Fields())
    {
      var methodName := SetterName(colName);
      var parameterType := Text;
      var accessorMethod := GetMethod(objectInstance.Methods(), methodName, [Text]);
      if accessorMethod.None? {
        parameterType := Int;
        accessorMethod := GetMethod(objectInstance.Methods(), methodName, [Int]);
      }
      if accessorMethod.Some? {
        var threw;
        if parameterType == Text {
          threw := objectInstance.Invoke(accessorMethod.value, TextValue(c.GetString(colName)));
        } else {
          threw := objectInstance.Invoke(accessorMethod.value, IntValue(c.GetInt(colName)));
        }
      }
    }

    /**
     * createObjectFromCursor: an instance of the named class, each column
     * set through the setter it resolves to, String setters first.
     * The source hands back the Class object itself (see README, Findings);
     * here the instance is a default-constructed entity.
     */
    method CreateObjectFromCursor(c: Cursor) returns (r: Option<Entity>)
      requires Valid() && className.Some? && c.OnRow()
      ensures r.Some? <==> ClassForName(className.value).Some?
      ensures r.Some? ==> fresh(r.value.Target()) && r.value.Class() == ClassForName(className.value).value
      ensures r.Some? ==> r.value.Fields() == Populate(r.value.Methods(), DefaultFieldsOf(r.value.Class()), columns, c.Current())
    {
      var cls := ClassForName(className.value);
      if cls.None? {
        // ClassNotFoundException
        return None;
      }
      var objectInstance := NewInstance(cls.value);
      ghost var methods, start, row := objectInstance.Methods(), DefaultFieldsOf(cls.value), c.Current();
      var cols := columns;
      assert NonEmptyNames(cols);
      var i := 0;
      while i < |cols|
        invariant 0 <= i <= |cols|
        invariant objectInstance.Fields() == Populate(methods, start, cols[..i], row)
      {
        SetColumn(objectInstance, c, cols[i]);
        PopulateStep(methods, start, cols, i, row);
        i := i + 1;
      }
      assert cols[..i] == cols;
      r := Some(objectInstance);
    }

    /**
     * The do/while loop of getAllEntriesAsList: from the first row to the
     * last, rebuild an entity and keep it unless rebuilding failed.
     */
    method CollectEntries(c: Cursor) returns (list: seq<Entity>, ghost fields: seq<map<string, Value>>, ghost objs: set<object>)
      requires Valid() && className.Some? && c.Valid() && c.position == -1
      modifies c`position
      ensures c.position == |c.rows|
      ensures c !in objs && (forall o :: o in objs ==> fresh(o)) && Holds(list, fields, objs)
      ensures ClassForName(className.value).None? ==> list == []
      ensures ClassForName(className.value).Some? ==>
        var cls := ClassForName(className.value).value;
        && |list| == |c.rows|
        && OfClass(list, cls)
        && RebuiltRows(fields, cls, columns, c.rows)
    {
      list := [];
      ghost var cls := ClassForName(className.value);
      fields := [];
      objs := {};
      var more := c.MoveToFirst();
      while more
        invariant c.Valid() && (more <==> c.OnRow())
        invariant !more ==> c.position == |c.rows|
        invariant 0 <= c.position
        invariant cls.None? ==> list == []
        invariant cls.Some? ==> |list| == c.position && OfClass(list, cls.value)
        invariant c !in objs && forall o :: o in objs ==> fresh(o)
        invariant Holds(list, fields, objs)
        invariant cls.Some? ==> RebuiltRows(fields, cls.value, columns, c.rows)
        decreases |c.rows| - c.position
      {
        list, fields, objs := CollectRow(c, list, fields, objs);
        more := c.MoveToNext();
      }
    }

    /** One pass of that loop: rebuild an entity from the current row and keep it unless rebuilding failed. */
    method CollectRow(c: Cursor, list: seq<Entity>, ghost fields: seq<map<string, Value>>, ghost objs: set<object>)
      returns (list': seq<Entity>, ghost fields': seq<map<string, Value>>, ghost objs': set<object>)
      requires Valid() && className.Some? && c.OnRow()
      requires c !in objs && Holds(list, fields, objs)
      requires ClassForName(className.value).None? ==> list == []
      requires ClassForName(className.value).Some? ==>
        |list| == c.position && OfClass(list, ClassForName(className.value).value)
        && RebuiltRows(fields, ClassForName(className.value).value, columns, c.rows)
      ensures c !in objs' && (forall o :: o in objs' ==> o in objs || fresh(o)) && Holds(list', fields', objs')
      ensures ClassForName(className.value).None? ==> list' == []
      ensures ClassForName(className.value).Some? ==>
        |list'| == c.position + 1 && OfClass(list', ClassForName(className.value).value)
        && RebuiltRows(fields', ClassForName(className.value).value, columns, c.rows)
    {
      list', fields', objs' := list, fields, objs;
      var objectInstance := CreateObjectFromCursor(c);
      if objectInstance.Some? {
        ghost var cls := ClassForName(className.value).value;
        HoldsAppend(list, fields, objs, objectInstance.value);
        RebuiltRowsAppend(fields, cls, columns, c.rows, objectInstance.value.Fields());
        list' := list + [objectInstance.value];
        fields' := fields + [objectInstance.value.Fields()];
        objs' := objs + {objectInstance.value.Target()};
      }
    }

    /**
     * getAllEntriesAsList: one rebuilt entity per row, in cursor order,
     * rows whose rebuilding failed dropped; the cursor is closed at the end.
     */
    method GetAllEntriesAsList() returns (list: seq<Entity>)
      requires Valid() && className.Some?
      modifies db`log, db`cursors
      ensures db.log == old(db.log) + [QueryRequest(table, columns, None)]
      ensures |db.cursors| == |old(db.cursors)| + 1 && db.cursors[..|old(db.cursors)|] == old(db.cursors)
      ensures db.cursors[|old(db.cursors)|].closed
      ensures ClassForName(className.value).None? ==> list == []
      ensures ClassForName(className.value).Some? ==>
        var cls := ClassForName(className.value).value;
        var rows := db.results(QueryRequest(table, columns, None));
        && |list| == |rows|
        && (forall j :: 0 <= j < |list| ==> fresh(list[j].Target()) && list[j].Class() == cls)
        && (forall i, j :: 0 <= i < j < |list| ==> list[i].Target() != list[j].Target())
        && forall j :: 0 <= j < |list| ==> list[j].Fields() == Populate(MethodsOf(cls), DefaultFieldsOf(cls), columns, rows[j])
    {
      var allEntriesSet := GetAllEntries();
      ghost var fields, objs;
      list, fields, objs := CollectEntries(allEntriesSet);
      allEntriesSet.Close();
      if ClassForName(className.value).Some? {
        HoldsRebuilt(list, fields, objs, ClassForName(className.value).value, columns, allEntriesSet.rows);
      }
    }

    /**
     * getEntry: the entity rebuilt from the first row selected by
     * "id=" + rowIndex, or None when there is no row or the class is not
     * found; the cursor is closed at the end.
     */
    method GetEntry(rowIndex: Int64) returns (r: Option<Entity>)
      requires Valid() && className.Some?
      modifies db`log, db`cursors
      ensures db.log == old(db.log) + [QueryRequest(table, columns, Some(WhereId(rowIndex)))]
      ensures |db.cursors| == |old(db.cursors)| + 1 && db.cursors[..|old(db.cursors)|] == old(db.cursors)
      ensures db.cursors[|old(db.cursors)|].closed
      ensures r.Some? <==> |db.results(QueryRequest(table, columns, Some(WhereId(rowIndex))))| > 0 && ClassForName(className.value).Some?
      ensures r.Some? ==>
        var cls := ClassForName(className.value).value;
        && fresh(r.value.Target()) && r.value.Class() == cls
        && r.value.Fields() == Populate(MethodsOf(cls), DefaultFieldsOf(cls), columns, db.results(QueryRequest(table, columns, Some(WhereId(rowIndex))))[0])
    {
      r := None;
      var resultSet := db.Query(table, columns, Some(WhereId(rowIndex)));
      var found := resultSet.MoveToFirst();
      if found {
        r := CreateObjectFromCursor(resultSet);
      }
      ghost var list := if r.Some? then [r.value] else [];
      ghost var fields := if r.Some? then [r.value.Fields()] else [];
      ghost var objs := if r.Some? then {r.value.Target()} else {};
      assert Holds(list, fields, objs) && resultSet !in objs;
      resultSet.Close();
      assert Holds(list, fields, objs);
    }
  }
}
