/**
 * Accessor names derived from column names (BaseDAO.java lines 211 and
 * 259): "get" or "set", then the column name with its first character
 * upper-cased and the rest unchanged.  Upper-casing is modelled for ASCII.
 */
module Naming {

  /** Upper case of an ASCII letter; every other character is unchanged. */
  function UpperAscii(c: char): (u: char)
    ensures 'a' <= c <= 'z' ==> 'A' <= u <= 'Z' && u as int == c as int - 32
    ensures !('a' <= c <= 'z') ==> u == c
  {
    if 'a' <= c <= 'z' then (c as int - 32) as char else c
  }

  /** colName.substring(0,1).toUpperCase() + colName.substring(1); the source fails on "". */
  function Capitalized(s: string): (r: string)
    requires s != []
  {
    [UpperAscii(s[0])] + s[1..]
  }

  function GetterName(col: string): (name: string)
    requires col != []
  {
    "get" + Capitalized(col)
  }

  function SetterName(col: string): (name: string)
    requires col != []
  {
    "set" + Capitalized(col)
  }

  /** The derived name keeps the prefix, the upper-cased first character and the rest. */
  lemma AccessorNameShape(col: string)
    requires col != []
    ensures |GetterName(col)| == |SetterName(col)| == |col| + 3
    ensures GetterName(col)[..3] == "get" && SetterName(col)[..3] == "set"
    ensures GetterName(col)[3] == SetterName(col)[3] == UpperAscii(col[0])
    ensures GetterName(col)[4..] == SetterName(col)[4..] == col[1..]
  {
  }

  /**
   * Two columns share a getter exactly when they share a setter, and that
   * happens exactly when they differ at most in the case of their first letter.
   */
  lemma AccessorCollision(a: string, b: string)
    requires a != [] && b != []
    ensures GetterName(a) == GetterName(b) <==> UpperAscii(a[0]) == UpperAscii(b[0]) && a[1..] == b[1..]
    ensures SetterName(a) == SetterName(b) <==> GetterName(a) == GetterName(b)
  {
    AccessorNameShape(a);
    AccessorNameShape(b);
    if GetterName(a) == GetterName(b) {
      assert GetterName(a)[4..] == GetterName(b)[4..];
    }
    if SetterName(a) == SetterName(b) {
      assert SetterName(a)[4..] == SetterName(b)[4..];
      assert SetterName(a)[3] == SetterName(b)[3];
    }
  }

  /** A getter name is never a setter name. */
  lemma GetterIsNotSetter(a: string, b: string)
    requires a != [] && b != []
    ensures GetterName(a) != SetterName(b)
  {
    assert GetterName(a)[0] != SetterName(b)[0];
  }
}
