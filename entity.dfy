/**
 * The two entity classes seen through reflection.  An Entity is a
 * reference to an instance of either class; its methods dispatch to the
 * class's method table, getters and setters, as Method.invoke does.
 */
module Entities {
  import opened Wrappers
  import opened Reflection
  import ModelTelescope
  import ModelEyepiece

  datatype EntityClass = TelescopeClass | EyepieceClass

  /** Class.forName over the classes of this model; any other name is not found. */
  function ClassForName(name: string): (r: Option<EntityClass>)
    ensures r == Some(TelescopeClass) <==> name == ModelTelescope.ClassName
    ensures r == Some(EyepieceClass) <==> name == ModelEyepiece.ClassName
  {
    if name == ModelTelescope.ClassName then Some(TelescopeClass)
    else if name == ModelEyepiece.ClassName then Some(EyepieceClass)
    else None
  }

  function MethodsOf(cls: EntityClass): (methods: seq<Signature>) {
    match cls
    case TelescopeClass => ModelTelescope.Methods
    case EyepieceClass => ModelEyepiece.Methods
  }

  /** The fields of an instance made by the class's no-argument constructor. */
  function DefaultFieldsOf(cls: EntityClass): (fields: map<string, Value>)
    ensures WellFormed(MethodsOf(cls), fields)
  {
    match cls
    case TelescopeClass =>
      ModelTelescope.MethodsWellFormed(0, None, 0, 0);
      ModelTelescope.DefaultFields
    case EyepieceClass =>
      ModelEyepiece.MethodsWellFormed(0, None, 0, 0);
      ModelEyepiece.DefaultFields
  }

  datatype Entity = OfTelescope(telescope: ModelTelescope.Telescope) | OfEyepiece(eyepiece: ModelEyepiece.Eyepiece) {

    function Class(): (cls: EntityClass) {
      if OfTelescope? then TelescopeClass else EyepieceClass
    }

    function Target(): (o: object) {
      if OfTelescope? then telescope else eyepiece
    }

    function Methods(): (methods: seq<Signature>) {
      MethodsOf(Class())
    }

    /** getClass(): the object's state always matches its class's method table. */
    function Fields(): (fields: map<string, Value>)
      reads Target()
      ensures WellFormed(Methods(), fields)
    {
      match this
      case OfTelescope(t) =>
        ModelTelescope.MethodsWellFormed(t.id, t.name, t.focalLength, t.aperture);
        t.Fields()
      case OfEyepiece(e) =>
        ModelEyepiece.MethodsWellFormed(e.id, e.name, e.focalLength, e.apparentFOV);
        e.Fields()
    }

    /** Invoking a getter of the object's class. */
    function Call(m: Signature): (v: Value)
      reads Target()
      requires m in Methods() && m.params == []
      ensures v == Fields()[m.field] && Some(v.KindOf()) == m.result
    {
      match this
      case OfTelescope(t) => t.Call(m)
      case OfEyepiece(e) => e.Call(m)
    }

    /** Invoking a one-argument setter of the object's class. */
    method Invoke(m: Signature, arg: Value) returns (threw: bool)
      requires m in Methods() && |m.params| == 1
      modifies Target()
      ensures threw <==> arg.KindOf() != m.params[0]
      ensures Fields() == if threw then old(Fields()) else old(Fields())[m.field := arg]
    {
      match this
      case OfTelescope(t) => threw := t.Invoke(m, arg);
      case OfEyepiece(e) => threw := e.Invoke(m, arg);
    }
  }

  /** A new instance made by the class's no-argument constructor. */
  method NewInstance(cls: EntityClass) returns (e: Entity)
    ensures fresh(e.Target()) && e.Class() == cls && e.Fields() == DefaultFieldsOf(cls)
  {
    match cls
    case TelescopeClass =>
      var t := new ModelTelescope.Telescope();
      e := OfTelescope(t);
    case EyepieceClass =>
      var p := new ModelEyepiece.Eyepiece();
      e := OfEyepiece(p);
  }
}
