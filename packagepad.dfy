/** library::PackagePad: a named pad of a package, identified by its UUID. */
module PackagePads {
  import opened Results
  import opened Uuids
  import opened SExpressions

  datatype PadData = PadData(uuid: Uuid, name: string)

  /** checkAttributesValidity: a pad needs a name. */
  predicate ValidPackagePad(d: PadData) {
    d.name != []
  }

  /** operator==: the same UUID and the same name. */
  function Equal(a: PadData, b: PadData): (r: bool)
    ensures r <==> a == b
  {
    a.uuid == b.uuid && a.name == b.name
  }

  /** serialize: an invalid pad is a logic error; otherwise the UUID and the name. */
  function SerializePackagePad(d: PadData): (r: Result<seq<SExpr>>)
    ensures r.Ok? <==> ValidPackagePad(d)
    ensures r.Err? ==> r.error == LogicError
    ensures r.Ok? ==> |r.value| == 2 && r.value[0] == Serialize(d.uuid) && ValueNamed(r.value, "name") == Ok(d.name)
  {
    if !ValidPackagePad(d) then Err(LogicError)
    else
      var r := [Serialize(d.uuid), List("name", [Str(d.name)])];
      ValueNamedUnique(r, 1, "name");
      Ok(r)
  }

  /** The loading constructor: a UUID as first child and a non-empty name. The final
      validity check cannot fail, since an empty name is already refused. */
  function LoadPackagePad(children: seq<SExpr>): (r: Result<PadData>)
    ensures r.Ok? ==> ValidPackagePad(r.value)
    ensures r.Err? ==> r.error == RuntimeError
    ensures r.Ok? <==> children != [] && Deserialize(children[0]).Ok? && NonEmptyValueNamed(children, "name").Ok?
    ensures r.Ok? ==> r.value == PadData(Deserialize(children[0]).value, ValueNamed(children, "name").value)
  {
    if children == [] then Err(RuntimeError)
    else
      match Deserialize(children[0])
      case Err(e) => Err(e)
      case Ok(uuid) =>
        match NonEmptyValueNamed(children, "name")
        case Err(e) => Err(e)
        case Ok(name) =>
          var d := PadData(uuid, name);
          if !ValidPackagePad(d) then Err(LogicError) else Ok(d)
  }

  /** Loading what serialize wrote gives the same pad back. */
  lemma LoadSerializedPackagePad(d: PadData)
    requires ValidPackagePad(d)
    ensures LoadPackagePad(SerializePackagePad(d).value) == Ok(d)
  {
    SerializeRoundTrip(d.uuid);
  }

  class PackagePad {
    var uuid: Uuid
    var name: string

    function State(): PadData
      reads this
    {
      PadData(uuid, name)
    }

    constructor (uuid: Uuid, name: string)
      ensures State() == PadData(uuid, name)
    {
      this.uuid := uuid;
      this.name := name;
    }

    /** The copy constructor: a pad equal to `other`. */
    constructor Copy(other: PackagePad)
      ensures Equal(State(), other.State())
    {
      uuid := other.uuid;
      name := other.name;
    }

    /** setName: any name is taken, the empty one too. */
    method SetName(newName: string)
      modifies this`name
      ensures State() == old(State()).(name := newName)
      ensures ValidPackagePad(State()) <==> newName != []
    {
      name := newName;
    }

    /** operator=: afterwards the pad equals `rhs`. */
    method Assign(rhs: PackagePad)
      modifies this
      ensures Equal(State(), old(rhs.State()))
    {
      var d := rhs.State();
      uuid := d.uuid;
      name := d.name;
    }
  }
}
