/**
 * The column logic of the generic mapper, over values: which string a
 * column contributes to an insert or update, which setter a column
 * resolves to, and how a row rebuilds an object.  The state of an
 * object is the map from its field names to their values.
 */
module Mapping {
  import opened Wrappers
  import opened Reflection
  import opened Naming
  import Decimal
  import opened Storage

  /**
   * How the getter's return type is classified.  AsWritten is the code
   * as it stands: it asks for the class of the Type object itself, which
   * is java.lang.Class, so it is never String nor int.  Intended compares
   * the return type itself.
   */
  datatype KindTest = AsWritten | Intended

  function ReturnKind(test: KindTest, result: Option<Kind>): (k: Option<Kind>)
    ensures test == AsWritten ==> k.None?
    ensures test == Intended ==> k == result
  {
    match test
    case AsWritten => None
    case Intended => result
  }

  predicate NonEmptyNames(cols: seq<string>) {
    forall i :: 0 <= i < |cols| ==> cols[i] != []
  }

  /**
   * getValueForColumn: the column's value as a string, or None (null)
   * when there is no zero-argument getter of the derived name, or its
   * return type is classified as neither String nor int, or the getter
   * returned null.
   */
  function ValueForColumn(methods: seq<Signature>, fields: map<string, Value>, col: string, test: KindTest): (r: Option<string>)
    requires WellFormed(methods, fields) && col != []
    ensures GetMethod(methods, GetterName(col), []).None? ==> r.None?
    ensures test == AsWritten ==> r.None?
    ensures r.Some? ==>
      var g := GetMethod(methods, GetterName(col), []).value;
      || (g.result == Some(Text) && fields[g.field].text == r)
      || (g.result == Some(Int) && r == Some(Decimal.Render(fields[g.field].number)))
  {
    match GetMethod(methods, GetterName(col), [])
    case None => None
    case Some(getter) =>
      match ReturnKind(test, getter.result)
      case Some(Text) => fields[getter.field].text
      case Some(Int) => Some(Decimal.Render(fields[getter.field].number))
      case None => None
  }

  /**
   * The ContentValues that insertEntry and updateEntry build: the columns
   * visited in order, each put with its value unless that value is null.
   */
  function ContentFor(methods: seq<Signature>, fields: map<string, Value>, cols: seq<string>, test: KindTest): (values: map<string, string>)
    requires WellFormed(methods, fields) && NonEmptyNames(cols)
    decreases |cols|
  {
    if cols == [] then map[]
    else
      var previous := ContentFor(methods, fields, cols[..|cols| - 1], test);
      var col := cols[|cols| - 1];
      match ValueForColumn(methods, fields, col, test)
      case Some(v) => previous[col := v]
      case None => previous
  }

  /** One more column of the list: its value is put unless it is null. */
  lemma ContentForStep(methods: seq<Signature>, fields: map<string, Value>, cols: seq<string>, i: nat, test: KindTest,
                       values: map<string, string>, value: Option<string>)
    requires WellFormed(methods, fields) && NonEmptyNames(cols) && i < |cols|
    requires values == ContentFor(methods, fields, cols[..i], test)
    requires value == ValueForColumn(methods, fields, cols[i], test)
    ensures ContentFor(methods, fields, cols[..i + 1], test) == if value.Some? then values[cols[i] := value.value] else values
  {
    assert cols[..i + 1][..i] == cols[..i];
  }

  /**
   * A column is a key of the value set exactly when it is one of the
   * columns and its value is not null; its entry is that value.
   */
  lemma {:induction false} ContentForKeys(methods: seq<Signature>, fields: map<string, Value>, cols: seq<string>, test: KindTest, k: string)
    requires WellFormed(methods, fields) && NonEmptyNames(cols)
    ensures k in ContentFor(methods, fields, cols, test) <==> k in cols && ValueForColumn(methods, fields, k, test).Some?
    ensures k in ContentFor(methods, fields, cols, test) ==>
      ContentFor(methods, fields, cols, test)[k] == ValueForColumn(methods, fields, k, test).value
    decreases |cols|
  {
    if cols != [] {
      var prefix := cols[..|cols| - 1];
      ContentForKeys(methods, fields, prefix, test, k);
      assert cols == prefix + [cols[|cols| - 1]];
      assert k in cols <==> k in prefix || k == cols[|cols| - 1];
    }
  }

  /** The value set's keys are among the columns. */
  lemma ContentKeysAreColumns(methods: seq<Signature>, fields: map<string, Value>, cols: seq<string>, test: KindTest)
    requires WellFormed(methods, fields) && NonEmptyNames(cols)
    ensures forall k :: k in ContentFor(methods, fields, cols, test) ==> k in cols
  {
    forall k | k in ContentFor(methods, fields, cols, test)
      ensures k in cols
    {
      ContentForKeys(methods, fields, cols, test, k);
    }
  }

  /** As written, no column ever contributes a value: every write sends an empty value set. */
  lemma {:induction false} ContentAsWrittenEmpty(methods: seq<Signature>, fields: map<string, Value>, cols: seq<string>)
    requires WellFormed(methods, fields) && NonEmptyNames(cols)
    ensures ContentFor(methods, fields, cols, AsWritten) == map[]
    decreases |cols|
  {
    if cols != [] {
      ContentAsWrittenEmpty(methods, fields, cols[..|cols| - 1]);
    }
  }

  /**
   * The setter a column resolves to: set<Column>(String) if the class has
   * one, otherwise set<Column>(int), otherwise none.
   */
  function ProbeSetter(methods: seq<Signature>, col: string): (r: Option<Signature>)
    requires col != []
    ensures r.Some? ==> r.value in methods && r.value.name == SetterName(col)
    ensures r.Some? ==> r.value.params == [Text] || r.value.params == [Int]
    ensures r.None? <==> GetMethod(methods, SetterName(col), [Text]).None? && GetMethod(methods, SetterName(col), [Int]).None?
  {
    match GetMethod(methods, SetterName(col), [Text])
    case Some(setter) => Some(setter)
    case None => GetMethod(methods, SetterName(col), [Int])
  }

  /** Text wins: a String setter is chosen whenever one exists, an int setter only when it does not. */
  lemma ProbeTextWins(methods: seq<Signature>, col: string)
    requires col != []
    ensures ProbeSetter(methods, col).Some? && ProbeSetter(methods, col).value.params == [Text]
      <==> exists i :: 0 <= i < |methods| && methods[i].name == SetterName(col) && methods[i].params == [Text]
    ensures ProbeSetter(methods, col).Some? && ProbeSetter(methods, col).value.params == [Int]
      <==> (forall i :: 0 <= i < |methods| ==> !(methods[i].name == SetterName(col) && methods[i].params == [Text]))
           && exists i :: 0 <= i < |methods| && methods[i].name == SetterName(col) && methods[i].params == [Int]
  {
    var text := GetMethod(methods, SetterName(col), [Text]);
    if text.Some? {
      var i :| 0 <= i < |methods| && methods[i] == text.value;
    }
    var number := GetMethod(methods, SetterName(col), [Int]);
    if text.None? && number.Some? {
      var i :| 0 <= i < |methods| && methods[i] == number.value;
    }
  }

  /** Cursor.getString or Cursor.getInt on the column, as the probed type says. */
  function ReadCell(row: Row, col: string, kind: Kind): (v: Value)
    ensures v.KindOf() == kind
    ensures kind == Text ==> v == TextValue(row.text(col))
    ensures kind == Int ==> v == IntValue(row.number(col))
  {
    match kind
    case Text => TextValue(row.text(col))
    case Int => IntValue(row.number(col))
  }

  /**
   * createObjectFromCursor's loop: starting from the object's state, each
   * column in order is read with the type of the setter it resolves to and
   * that setter is applied; a column without a setter is skipped.
   */
  function Populate(methods: seq<Signature>, state: map<string, Value>, cols: seq<string>, row: Row): (rebuilt: map<string, Value>)
    requires NonEmptyNames(cols)
    decreases |cols|
  {
    if cols == [] then state
    else
      var previous := Populate(methods, state, cols[..|cols| - 1], row);
      var col := cols[|cols| - 1];
      match ProbeSetter(methods, col)
      case Some(setter) => previous[setter.field := ReadCell(row, col, setter.params[0])]
      case None => previous
  }

  /** One more column of the list: its setter, if any, is applied to the value read for it. */
  lemma PopulateStep(methods: seq<Signature>, state: map<string, Value>, cols: seq<string>, i: nat, row: Row)
    requires NonEmptyNames(cols) && i < |cols|
    ensures Populate(methods, state, cols[..i + 1], row) ==
      match ProbeSetter(methods, cols[i])
      case Some(setter) => Populate(methods, state, cols[..i], row)[setter.field := ReadCell(row, cols[i], setter.params[0])]
      case None => Populate(methods, state, cols[..i], row)
  {
    assert cols[..i + 1][..i] == cols[..i];
  }

  /** Rebuilding keeps the object's shape: the same fields, each of its accessors' type. */
  lemma {:induction false} PopulateWellFormed(methods: seq<Signature>, state: map<string, Value>, cols: seq<string>, row: Row)
    requires WellFormed(methods, state) && NonEmptyNames(cols)
    ensures WellFormed(methods, Populate(methods, state, cols, row))
    ensures Populate(methods, state, cols, row).Keys == state.Keys
    decreases |cols|
  {
    if cols != [] {
      PopulateWellFormed(methods, state, cols[..|cols| - 1], row);
    }
  }

  /** An object whose class has no setter of any column's derived name is returned exactly as it was. */
  lemma {:induction false} PopulateWithoutSetters(methods: seq<Signature>, state: map<string, Value>, cols: seq<string>, row: Row)
    requires NonEmptyNames(cols)
    requires forall i :: 0 <= i < |cols| ==> ProbeSetter(methods, cols[i]).None?
    ensures Populate(methods, state, cols, row) == state
    decreases |cols|
  {
    if cols != [] {
      var prefix := cols[..|cols| - 1];
      assert forall i :: 0 <= i < |prefix| ==> prefix[i] == cols[i];
      PopulateWithoutSetters(methods, state, prefix, row);
    }
  }

  /**
   * A class none of whose public method names starts with "set", such as
   * java.lang.Class, has no setter for any column, so rebuilding leaves
   * its object exactly as it was.
   */
  lemma PopulateWithoutSetterNames(methods: seq<Signature>, state: map<string, Value>, cols: seq<string>, row: Row)
    requires NonEmptyNames(cols)
    requires forall i :: 0 <= i < |methods| ==> !(|methods[i].name| >= 3 && methods[i].name[..3] == "set")
    ensures Populate(methods, state, cols, row) == state
  {
    forall i | 0 <= i < |cols|
      ensures ProbeSetter(methods, cols[i]).None?
    {
      var name := SetterName(cols[i]);
      assert |name| >= 3 && name[..3] == "set";
    }
    PopulateWithoutSetters(methods, state, cols, row);
  }

  /**
   * The column's accessor pair sits at indices g and s of the table: a
   * zero-argument getter and a one-argument setter, both named after the
   * column, both accessing the field of the column's name, and agreeing on
   * its type.
   */
  predicate AccessorsAt(methods: seq<Signature>, col: string, g: int, s: int) {
    && col != [] && 0 <= g < |methods| && 0 <= s < |methods|
    && methods[g].name == GetterName(col) && methods[g].params == [] && methods[g].field == col
    && methods[s].name == SetterName(col) && |methods[s].params| == 1 && methods[s].field == col
    && methods[g].result == Some(methods[s].params[0])
  }

  /** A column whose getter and setter both exist, access the field of its own name, and agree on its type. */
  predicate Mirrored(methods: seq<Signature>, col: string) {
    col != [] && exists g, s | 0 <= g < |methods| && 0 <= s < |methods| :: AccessorsAt(methods, col, g, s)
  }

  /**
   * Without overloads, a mirrored column's getter lookup finds its getter
   * and its setter probe finds its setter, with the getter's type.
   */
  lemma MirroredResolves(methods: seq<Signature>, col: string)
    requires NoOverloads(methods) && Mirrored(methods, col)
    ensures GetMethod(methods, GetterName(col), []).Some? && GetMethod(methods, GetterName(col), []).value.field == col
    ensures ProbeSetter(methods, col).Some? && ProbeSetter(methods, col).value.field == col
    ensures GetMethod(methods, GetterName(col), []).value.result == Some(ProbeSetter(methods, col).value.params[0])
  {
    var g, s :| 0 <= g < |methods| && 0 <= s < |methods| && AccessorsAt(methods, col, g, s);
    GetMethodByName(methods, g, []);
    GetMethodByName(methods, s, [Text]);
    GetMethodByName(methods, s, [Int]);
    if methods[s].params[0] == Text {
      assert methods[s].params == [Text];
    } else {
      assert methods[s].params == [Int];
    }
  }

  /** Without overloads, a mirrored column is probed with the type of the field it names. */
  lemma MirroredKind(methods: seq<Signature>, fields: map<string, Value>, col: string)
    requires NoOverloads(methods) && Mirrored(methods, col) && WellFormed(methods, fields)
    ensures col in fields
    ensures ProbeSetter(methods, col).Some? && ProbeSetter(methods, col).value.params == [fields[col].KindOf()]
  {
    var g, s :| 0 <= g < |methods| && 0 <= s < |methods| && AccessorsAt(methods, col, g, s);
    MirroredResolves(methods, col);
    GetMethodByName(methods, s, [Text]);
    GetMethodByName(methods, s, [Int]);
    assert methods[s].params == [methods[s].params[0]];
  }

  /**
   * A row holds what was written: each written string reads back as text
   * and, if it spells a number within int range, as that number.
   */
  predicate Echoes(row: Row, values: map<string, string>) {
    forall k :: k in values ==>
      && row.text(k) == Some(values[k])
      && (Decimal.Parse(values[k]).Some? && FitsInt32(Decimal.Parse(values[k]).value) ==>
            row.number(k) == Decimal.Parse(values[k]).value)
  }

  /**
   * The row a table that stored the value set gives back: each written
   * string as text, and as a number where it spells one within int range.
   * Every value set has such a row, so Echoes is never out of reach.
   */
  function EchoedRow(values: map<string, string>): (row: Row)
    ensures Echoes(row, values)
    ensures forall k :: k !in values ==> row.text(k).None?
  {
    Row(k => if k in values then Some(values[k]) else None,
        k => if k in values && Decimal.Parse(values[k]).Some? && FitsInt32(Decimal.Parse(values[k]).value)
             then Decimal.Parse(values[k]).value else 0)
  }

  /** After rebuilding over mirrored columns, a column's field holds what the row gives for it; other fields keep their value. */
  lemma {:induction false} PopulateMirrored(methods: seq<Signature>, state: map<string, Value>, cols: seq<string>, row: Row, f: string)
    requires WellFormed(methods, state) && NonEmptyNames(cols) && NoOverloads(methods)
    requires forall i :: 0 <= i < |cols| ==> Mirrored(methods, cols[i])
    requires f in state
    ensures f in Populate(methods, state, cols, row)
    ensures f in cols ==>
      && ProbeSetter(methods, f).Some?
      && Populate(methods, state, cols, row)[f] == ReadCell(row, f, ProbeSetter(methods, f).value.params[0])
    ensures f !in cols ==> Populate(methods, state, cols, row)[f] == state[f]
    decreases |cols|
  {
    PopulateWellFormed(methods, state, cols, row);
    if cols != [] {
      var prefix := cols[..|cols| - 1];
      assert cols == prefix + [cols[|cols| - 1]];
      assert f in cols <==> f in prefix || f == cols[|cols| - 1];
      MirroredResolves(methods, cols[|cols| - 1]);
      PopulateMirrored(methods, state, prefix, row, f);
    }
  }

  /**
   * What a mapper needs of a class and its column list for reading to undo
   * writing: no overloaded method names, every column backed by a getter and
   * a setter of one type, and every field of the class listed as a column.
   */
  predicate Mapped(methods: seq<Signature>, keys: set<string>, cols: seq<string>) {
    && NoOverloads(methods) && NonEmptyNames(cols)
    && (forall i :: 0 <= i < |cols| ==> Mirrored(methods, cols[i]))
    && (forall f :: f in keys ==> f in cols)
  }

  /** No text field is null: the state a null-omitting write can reproduce. */
  predicate NoNullText(fields: map<string, Value>) {
    forall f :: f in fields && fields[f].TextValue? ==> fields[f].text.Some?
  }

  /** A mirrored field that the typed lookup wrote and the row echoes reads back unchanged. */
  lemma RoundTripField(methods: seq<Signature>, fields: map<string, Value>, start: map<string, Value>, cols: seq<string>, row: Row, f: string)
    requires WellFormed(methods, fields) && WellFormed(methods, start) && start.Keys == fields.Keys
    requires NoOverloads(methods) && NonEmptyNames(cols) && forall i :: 0 <= i < |cols| ==> Mirrored(methods, cols[i])
    requires f in fields && f in cols
    requires fields[f].TextValue? ==> fields[f].text.Some?
    requires Echoes(row, ContentFor(methods, fields, cols, Intended))
    ensures f in Populate(methods, start, cols, row) && Populate(methods, start, cols, row)[f] == fields[f]
  {
    PopulateMirrored(methods, start, cols, row, f);
    MirroredResolves(methods, f);
    var getter := GetMethod(methods, GetterName(f), []).value;
    var g :| 0 <= g < |methods| && methods[g] == getter;
    var values := ContentFor(methods, fields, cols, Intended);
    ContentForKeys(methods, fields, cols, Intended, f);
    assert f in values;
    if getter.result == Some(Int) {
      Decimal.ParseRender(fields[f].number);
    }
  }

  /** RoundTripField under the conditions a mapped class and column list meet. */
  lemma RoundTripMapped(methods: seq<Signature>, fields: map<string, Value>, start: map<string, Value>, cols: seq<string>, row: Row, f: string)
    requires WellFormed(methods, fields) && WellFormed(methods, start) && start.Keys == fields.Keys
    requires Mapped(methods, fields.Keys, cols) && NoNullText(fields) && f in fields
    requires Echoes(row, ContentFor(methods, fields, cols, Intended))
    ensures f in Populate(methods, start, cols, row) && Populate(methods, start, cols, row)[f] == fields[f]
  {
    assert f in fields.Keys;
    RoundTripField(methods, fields, start, cols, row, f);
  }

  /**
   * Round trip: when every field is a mirrored column, no text field is
   * null, and the row holds the values the typed lookup wrote, rebuilding
   * from any object of the same shape yields the written object.
   */
  lemma RoundTrip(methods: seq<Signature>, fields: map<string, Value>, start: map<string, Value>, cols: seq<string>, row: Row)
    requires WellFormed(methods, fields) && WellFormed(methods, start) && start.Keys == fields.Keys
    requires Mapped(methods, fields.Keys, cols)
    requires NoNullText(fields)
    requires Echoes(row, ContentFor(methods, fields, cols, Intended))
    ensures Populate(methods, start, cols, row) == fields
  {
    PopulateWellFormed(methods, start, cols, row);
    var rebuilt := Populate(methods, start, cols, row);
    forall f | f in fields
      ensures rebuilt[f] == fields[f]
    {
      RoundTripMapped(methods, fields, start, cols, row, f);
    }
  }
}
