/** The telescope entity: four private fields behind getter/setter pairs. */
module ModelTelescope {
  import opened Wrappers
  import opened Reflection
  import opened Mapping

  const ClassName: string := "com.jotabout.eyepiececalc.model.Telescope"

  /** The fields of a telescope, keyed by field name. */
  function FieldMap(id: Int32, name: Option<string>, focalLength: Int32, aperture: Int32): (fields: map<string, Value>) {
    map["id" := IntValue(id), "name" := TextValue(name),
        "focalLength" := IntValue(focalLength), "aperture" := IntValue(aperture)]
  }

  /** The fields of a default-constructed telescope: zero ints, null name. */
  const DefaultFields: map<string, Value> := FieldMap(0, None, 0, 0)

  /** The public methods Telescope declares, in declaration order. */
  const Methods: seq<Signature> := [
    Signature("getId", [], Some(Int), "id"),
    Signature("setId", [Int], None, "id"),
    Signature("getName", [], Some(Text), "name"),
    Signature("setName", [Text], None, "name"),
    Signature("getFocalLength", [], Some(Int), "focalLength"),
    Signature("setFocalLength", [Int], None, "focalLength"),
    Signature("getAperture", [], Some(Int), "aperture"),
    Signature("setAperture", [Int], None, "aperture")
  ]

  /** The method table agrees with every telescope's fields. */
  lemma MethodsWellFormed(id: Int32, name: Option<string>, focalLength: Int32, aperture: Int32)
    ensures WellFormed(Methods, FieldMap(id, name, focalLength, aperture))
  {
  }

  /** A telescope has no null text field exactly when its name is set; its fields are always the same four. */
  lemma NullTextIsName(id: Int32, name: Option<string>, focalLength: Int32, aperture: Int32)
    ensures NoNullText(FieldMap(id, name, focalLength, aperture)) <==> name.Some?
    ensures FieldMap(id, name, focalLength, aperture).Keys == DefaultFields.Keys
  {
    assert FieldMap(id, name, focalLength, aperture)["name"] == TextValue(name);
  }

  /** Telescope overloads no method name. */
  lemma MethodsNoOverloads()
    ensures NoOverloads(Methods)
  {
  }

  /** Where each field's getter and setter sit in the method table. */
  lemma IdAccessors()
    ensures AccessorsAt(Methods, "id", 0, 1)
  {
  }

  lemma NameAccessors()
    ensures AccessorsAt(Methods, "name", 2, 3)
  {
  }

  lemma FocalLengthAccessors()
    ensures AccessorsAt(Methods, "focalLength", 4, 5)
  {
  }

  lemma ApertureAccessors()
    ensures AccessorsAt(Methods, "aperture", 6, 7)
  {
  }

  /**
   * Each field's getter and setter exist under the names derived from the
   * field's name, access that field, and agree on its type.
   */
  lemma AccessorsMirrored()
    ensures Mirrored(Methods, "id") && Mirrored(Methods, "name")
    ensures Mirrored(Methods, "focalLength") && Mirrored(Methods, "aperture")
  {
    IdAccessors();
    NameAccessors();
    FocalLengthAccessors();
    ApertureAccessors();
  }

  /** Every field of a telescope has mirrored accessors. */
  lemma FieldsMirrored(field: string)
    requires field in DefaultFields
    ensures Mirrored(Methods, field)
  {
    AccessorsMirrored();
  }

  /**
   * Under the String-first probe each field is read with its own type:
   * name as text, id, focalLength and aperture as int.
   */
  lemma ProbedKinds(field: string)
    requires field in DefaultFields
    ensures ProbeSetter(Methods, field).Some? && ProbeSetter(Methods, field).value.params == [DefaultFields[field].KindOf()]
  {
    FieldsMirrored(field);
    MethodsNoOverloads();
    MethodsWellFormed(0, None, 0, 0);
    MirroredKind(Methods, DefaultFields, field);
  }

  class Telescope {
    var id: Int32
    var name: Option<string>
    var focalLength: Int32
    var aperture: Int32

    constructor ()
      ensures GetId() == 0 && GetName() == None && GetFocalLength() == 0 && GetAperture() == 0
      ensures Fields() == DefaultFields
    {
      id, name, focalLength, aperture := 0, None, 0, 0;
    }

    constructor Of(id: Int32, name: Option<string>, focalLength: Int32, aperture: Int32)
      ensures GetId() == id && GetName() == name && GetFocalLength() == focalLength && GetAperture() == aperture
    {
      this.id := id;
      this.name := name;
      this.focalLength := focalLength;
      this.aperture := aperture;
    }

    function Fields(): (fields: map<string, Value>)
      reads this
    {
      FieldMap(id, name, focalLength, aperture)
    }

    function GetId(): Int32 reads this { id }
    function GetName(): Option<string> reads this { name }
    function GetFocalLength(): Int32 reads this { focalLength }
    function GetAperture(): Int32 reads this { aperture }

    method SetId(id: Int32)
      modifies this
      ensures GetId() == id
      ensures GetName() == old(GetName()) && GetFocalLength() == old(GetFocalLength()) && GetAperture() == old(GetAperture())
    {
      this.id := id;
    }

    method SetName(name: Option<string>)
      modifies this
      ensures GetName() == name
      ensures GetId() == old(GetId()) && GetFocalLength() == old(GetFocalLength()) && GetAperture() == old(GetAperture())
    {
      this.name := name;
    }

    method SetFocalLength(focalLength: Int32)
      modifies this
      ensures GetFocalLength() == focalLength
      ensures GetId() == old(GetId()) && GetName() == old(GetName()) && GetAperture() == old(GetAperture())
    {
      this.focalLength := focalLength;
    }

    method SetAperture(aperture: Int32)
      modifies this
      ensures GetAperture() == aperture
      ensures GetId() == old(GetId()) && GetName() == old(GetName()) && GetFocalLength() == old(GetFocalLength())
    {
      this.aperture := aperture;
    }

    /** Method.invoke of a getter from the table: the value of the field it reads. */
    function Call(m: Signature): (v: Value)
      reads this
      requires m in Methods && m.params == []
      ensures v == Fields()[m.field] && Some(v.KindOf()) == m.result
    {
      if m.name == "getId" then IntValue(GetId())
      else if m.name == "getName" then TextValue(GetName())
      else if m.name == "getFocalLength" then IntValue(GetFocalLength())
      else IntValue(GetAperture())
    }

    /**
     * Method.invoke of a setter from the table with one argument: an
     * argument of the wrong type throws IllegalArgumentException and
     * changes nothing; otherwise only the setter's field changes.
     */
    method Invoke(m: Signature, arg: Value) returns (threw: bool)
      requires m in Methods && |m.params| == 1
      modifies this
      ensures threw <==> arg.KindOf() != m.params[0]
      ensures Fields() == if threw then old(Fields()) else old(Fields())[m.field := arg]
    {
      threw := arg.KindOf() != m.params[0];
      if threw {
        return;
      }
      if m.name == "setId" {
        SetId(arg.number);
      } else if m.name == "setName" {
        SetName(arg.text);
      } else if m.name == "setFocalLength" {
        SetFocalLength(arg.number);
      } else {
        SetAperture(arg.number);
      }
    }
  }
}
