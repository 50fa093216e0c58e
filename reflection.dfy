/**
 * The part of Java reflection the mapper uses, made explicit: an entity
 * class is a finite table of public method signatures, and
 * Class.getMethod(name, parameterTypes) is a search of that table.
 */
module Reflection {
  import opened Wrappers

  /** Java int and long. */
  predicate FitsInt32(x: int) {
    -0x8000_0000 <= x < 0x8000_0000
  }

  type Int32 = x: int | FitsInt32(x)
  type Int64 = x: int | -0x8000_0000_0000_0000 <= x < 0x8000_0000_0000_0000

  /** The two supported Java types: String and int. */
  datatype Kind = Text | Int

  /** A field value: a possibly-null String or an int. */
  datatype Value = TextValue(text: Option<string>) | IntValue(number: Int32) {
    function KindOf(): (k: Kind) {
      if TextValue? then Text else Int
    }
  }

  /**
   * A public method: its name, parameter types, return type (None for
   * void or any type other than String and int), and the field that the
   * plain accessor reads or writes.
   */
  datatype Signature = Signature(name: string, params: seq<Kind>, result: Option<Kind>, field: string)

  /** Class.getMethod(name, params): the method with exactly that name and parameter list. */
  function GetMethod(table: seq<Signature>, name: string, params: seq<Kind>): (r: Option<Signature>)
    ensures r.Some? ==> r.value in table && r.value.name == name && r.value.params == params
    ensures r.None? ==> forall i :: 0 <= i < |table| ==> table[i].name != name || table[i].params != params
  {
    if table == [] then None
    else if table[0].name == name && table[0].params == params then Some(table[0])
    else GetMethod(table[1..], name, params)
  }

  /** The method names of a table are pairwise distinct, as they are when no method is overloaded. */
  predicate NoOverloads(table: seq<Signature>) {
    forall i, j :: 0 <= i < |table| && 0 <= j < |table| && table[i].name == table[j].name ==> i == j
  }

  /** Without overloads, getMethod finds the entry of that name exactly when its parameter list matches. */
  lemma GetMethodByName(table: seq<Signature>, i: nat, params: seq<Kind>)
    requires NoOverloads(table) && i < |table|
    ensures GetMethod(table, table[i].name, params) == if table[i].params == params then Some(table[i]) else None
  {
    var r := GetMethod(table, table[i].name, params);
    if r.Some? {
      var k :| 0 <= k < |table| && table[k] == r.value;
    }
  }

  /**
   * Every method of the table is a getter or a setter of a field the
   * object has, and the field's value has the accessor's type.
   */
  predicate WellFormed(table: seq<Signature>, fields: map<string, Value>) {
    forall i :: 0 <= i < |table| ==>
      && table[i].field in fields
      && (|table[i].params| == 0 ==> table[i].result == Some(fields[table[i].field].KindOf()))
      && (|table[i].params| == 1 ==> table[i].params[0] == fields[table[i].field].KindOf() && table[i].result.None?)
      && |table[i].params| <= 1
  }
}
