/** The eyepiece entity: four private fields behind getter/setter pairs. */
module ModelEyepiece {
  import opened Wrappers
  import opened Reflection
  import opened Mapping

  const ClassName: string := "com.jotabout.eyepiececalc.model.Eyepiece"

  /** The fields of an eyepiece, keyed by field name. */
  function FieldMap(id: Int32, name: Option<string>, focalLength: Int32, apparentFOV: Int32): (fields: map<string, Value>) {
    map["id" := IntValue(id), "name" := TextValue(name),
        "focalLength" := IntValue(focalLength), "apparentFOV" := IntValue(apparentFOV)]
  }

  /** The fields of a default-constructed eyepiece: zero ints, null name. */
  const DefaultFields: map<string, Value> := FieldMap(0, None, 0, 0)

  /** The public methods Eyepiece declares, in declaration order. */
  const Methods: seq<Signature> := [
    Signature("getName", [], Some(Text), "name"),
    Signature("setName", [Text], None, "name"),
    Signature("getFocalLength", [], Some(Int), "focalLength"),
    Signature("setFocalLength", [Int], None, "focalLength"),
    Signature("getApparentFOV", [], Some(Int), "apparentFOV"),
    Signature("setApparentFOV", [Int], None, "apparentFOV"),
    Signature("getId", [], Some(Int), "id"),
    Signature("setId", [Int], None, "id")
  ]

  /** The method table agrees with every eyepiece's fields. */
  lemma MethodsWellFormed(id: Int32, name: Option<string>, focalLength: Int32, apparentFOV: Int32)
    ensures WellFormed(Methods, FieldMap(id, name, focalLength, apparentFOV))
  {
  }

  /** An eyepiece has no null text field exactly when its name is set; its fields are always the same four. */
  lemma NullTextIsName(id: Int32, name: Option<string>, focalLength: Int32, apparentFOV: Int32)
    ensures NoNullText(FieldMap(id, name, focalLength, apparentFOV)) <==> name.Some?
    ensures FieldMap(id, name, focalLength, apparentFOV).Keys == DefaultFields.Keys
  {
    assert FieldMap(id, name, focalLength, apparentFOV)["name"] == TextValue(name);
  }

  /** Eyepiece overloads no method name. */
  lemma MethodsNoOverloads()
    ensures NoOverloads(Methods)
  {
  }

  /** Where each field's getter and setter sit in the method table. */
  lemma NameAccessors()
    ensures AccessorsAt(Methods, "name", 0, 1)
  {
  }

  lemma FocalLengthAccessors()
    ensures AccessorsAt(Methods, "focalLength", 2, 3)
  {
  }

  lemma ApparentFOVAccessors()
    ensures AccessorsAt(Methods, "apparentFOV", 4, 5)
  {
  }

  lemma IdAccessors()
    ensures AccessorsAt(Methods, "id", 6, 7)
  {
  }

  /**
   * Each field's getter and setter exist under the names derived from the
   * field's name, access that field, and agree on its type.
   */
  lemma AccessorsMirrored()
    ensures Mirrored(Methods, "name") && Mirrored(Methods, "focalLength")
    ensures Mirrored(Methods, "apparentFOV") && Mirrored(Methods, "id")
  {
    NameAccessors();
    FocalLengthAccessors();
    ApparentFOVAccessors();
    IdAccessors();
  }

  /** Every field of an eyepiece has mirrored accessors. */
  lemma FieldsMirrored(field: string)
    requires field in DefaultFields
    ensures Mirrored(Methods, field)
  {
    AccessorsMirrored();
  }

  /**
   * Under the String-first probe each field is read with its own type:
   * name as text, id, focalLength and apparentFOV as int.
   */
  lemma ProbedKinds(field: string)
    requires field in DefaultFields
    ensures ProbeSetter(Methods, field).Some? && ProbeSetter(Methods, field).value.params == [DefaultFields[field].KindOf()]
  {
    FieldsMirrored(field);
    MethodsNoOverloads();
    MethodsWellFormed(0, None, 0, 0);
    MirroredKind(Methods, DefaultFields, field);
  }

  class Eyepiece {
    var id: Int32
    var name: Option<string>
    var focalLength: Int32
    var apparentFOV: Int32

    constructor ()
      ensures GetId() == 0 && GetName() == None && GetFocalLength() == 0 && GetApparentFOV() == 0
      ensures Fields() == DefaultFields
    {
      id, name, focalLength, apparentFOV := 0, None, 0, 0;
    }

    constructor Of(id: Int32, name: Option<string>, focalLength: Int32, apparentFOV: Int32)
      ensures GetId() == id && GetName() == name && GetFocalLength() == focalLength && GetApparentFOV() == apparentFOV
    {
      this.id := id;
      this.name := name;
      this.focalLength := focalLength;
      this.apparentFOV := apparentFOV;
    }

    function Fields(): (fields: map<string, Value>)
      reads this
    {
      FieldMap(id, name, focalLength, apparentFOV)
    }

    function GetId(): Int32 reads this { id }
    function GetName(): Option<string> reads this { name }
    function GetFocalLength(): Int32 reads this { focalLength }
    function GetApparentFOV(): Int32 reads this { apparentFOV }

    method SetId(id: Int32)
      modifies this
      ensures GetId() == id
      ensures GetName() == old(GetName()) && GetFocalLength() == old(GetFocalLength()) && GetApparentFOV() == old(GetApparentFOV())
    {
      this.id := id;
    }

    method SetName(name: Option<string>)
      modifies this
      ensures GetName() == name
      ensures GetId() == old(GetId()) && GetFocalLength() == old(GetFocalLength()) && GetApparentFOV() == old(GetApparentFOV())
    {
      this.name := name;
    }

    method SetFocalLength(focalLength: Int32)
      modifies this
      ensures GetFocalLength() == focalLength
      ensures GetId() == old(GetId()) && GetName() == old(GetName()) && GetApparentFOV() == old(GetApparentFOV())
    {
      this.focalLength := focalLength;
    }

    method SetApparentFOV(apparentFOV: Int32)
      modifies this
      ensures GetApparentFOV() == apparentFOV
      ensures GetId() == old(GetId()) && GetName() == old(GetName()) && GetFocalLength() == old(GetFocalLength())
    {
      this.apparentFOV := apparentFOV;
    }

    /** Method.invoke of a getter from the table: the value of the field it reads. */
    function Call(m: Signature): (v: Value)
      reads this
      requires m in Methods && m.params == []
      ensures v == Fields()[m.field] && Some(v.KindOf()) == m.result
    {
      if m.name == "getId" then IntValue(GetId())
      else if m.name == "getName" then TextValue(GetName())
      else if m.name == "getFocalLength" then IntValue(GetFocalLength())
      else IntValue(GetApparentFOV())
    }

    /**
     * Method.invoke of a setter from the table with one argument: an
     * argument of the wrong type throws IllegalArgumentException and
     * changes nothing; otherwise only the setter's field changes.
     */
    method Invoke(m: Signature, arg: Value) returns (threw: bool)
      requires m in Methods && |m.params| == 1
      modifies this
      ensures threw <==> arg.KindOf() != m.params[0]
      ensures Fields() == if threw then old(Fields()) else old(Fields())[m.field := arg]
    {
      threw := arg.KindOf() != m.params[0];
      if threw {
        return;
      }
      if m.name == "setId" {
        SetId(arg.number);
      } else if m.name == "setName" {
        SetName(arg.text);
      } else if m.name == "setFocalLength" {
        SetFocalLength(arg.number);
      } else {
        SetApparentFOV(arg.number);
      }
    }
  }
}
