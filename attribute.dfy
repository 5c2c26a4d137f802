/** Attribute: a user-defined key with a typed value and an optional unit. The
    attribute types (which units a type allows, which values it accepts, how a
    unit is read back) are AttributeType's own and are passed in as `TypeRules`. */
module Attributes {
  import opened Results
  import opened Strings
  import opened SExpressions

  /** A unit by name; None stands for no unit (a null unit pointer). */
  type Unit = Option<string>

  datatype TypeRules = TypeRules(
    /** AttributeType::fromString finds a type of that name. */
    typeKnown: string -> bool,
    /** AttributeType::getUnitFromString: the unit a type reads from a text, or an error. */
    unitFromString: (string, string) -> Result<Unit>,
    /** AttributeType::isUnitAvailable. */
    unitAvailable: (string, Unit) -> bool,
    /** AttributeType::isValueValid. */
    valueValid: (string, string) -> bool)

  /** The four fields of an attribute; the type is identified by its name. */
  datatype AttrData = AttrData(key: string, typeName: string, value: string, unit: Unit)

  /** checkAttributesValidity: a key that is not blank, a unit the type allows and a
      value the type accepts. */
  predicate ValidAttr(rules: TypeRules, d: AttrData) {
    Trimmed(d.key) != [] && rules.unitAvailable(d.typeName, d.unit) && rules.valueValid(d.typeName, d.value)
  }

  /** The validity check rejects exactly the keys made of whitespace only. */
  lemma ValidKeyNotBlank(rules: TypeRules, d: AttrData)
    requires rules.unitAvailable(d.typeName, d.unit) && rules.valueValid(d.typeName, d.value)
    ensures ValidAttr(rules, d) <==> !IsBlank(d.key)
  {
  }

  /** operator==: key, type, value and unit. */
  function Equal(a: AttrData, b: AttrData): (r: bool)
    ensures r <==> a == b
  {
    a.key == b.key && a.typeName == b.typeName && a.value == b.value && a.unit == b.unit
  }

  /** The text serialize writes for a unit: its name, or the token `none`. */
  function UnitText(u: Unit): (t: string)
    ensures u.None? ==> t == "none"
    ensures u.Some? ==> t == u.value
  {
    if u.Some? then u.value else "none"
  }

  /** serialize: an invalid attribute is a logic error; otherwise the key, then the
      type, the unit (`none` when there is none) and the value. */
  function SerializeAttr(rules: TypeRules, d: AttrData): (r: Result<seq<SExpr>>)
    ensures r.Ok? <==> ValidAttr(rules, d)
    ensures r.Err? ==> r.error == LogicError
    ensures r.Ok? ==> |r.value| == 4 && LeafText(r.value[0]) == Ok(d.key)
    ensures r.Ok? ==> ValueNamed(r.value, "type") == Ok(d.typeName)
    ensures r.Ok? ==> ValueNamed(r.value, "unit") == Ok(if d.unit.None? then "none" else d.unit.value)
    ensures r.Ok? ==> ValueNamed(r.value, "value") == Ok(d.value)
  {
    if !ValidAttr(rules, d) then Err(LogicError)
    else
      Ok(AttrNodes(d))
  }

  /** The children serialize writes for a valid attribute. */
  function AttrNodes(d: AttrData): (r: seq<SExpr>)
    ensures |r| == 4 && LeafText(r[0]) == Ok(d.key)
    ensures ValueNamed(r, "type") == Ok(d.typeName)
    ensures ValueNamed(r, "unit") == Ok(UnitText(d.unit))
    ensures ValueNamed(r, "value") == Ok(d.value)
  {
    var r := [Str(d.key), List("type", [Token(d.typeName)]), List("unit", [Token(UnitText(d.unit))]),
              List("value", [Str(d.value)])];
    assert "type"[0] != "unit"[0] && "type"[0] != "value"[0] && "unit"[0] != "value"[0];
    ValueNamedUnique(r, 1, "type");
    ValueNamedUnique(r, 2, "unit");
    ValueNamedUnique(r, 3, "value");
    r
  }

  /** The loading constructor: a non-empty key as first child, a known type, a unit
      the type can read, and a value; then the whole must be valid (a logic error
      otherwise, for instance for a key of blanks). */
  function LoadAttr(rules: TypeRules, children: seq<SExpr>): (r: Result<AttrData>)
    ensures r.Ok? ==> ValidAttr(rules, r.value)
    ensures r.Ok? ==> children != [] && LeafText(children[0]) == Ok(r.value.key)
    ensures r.Ok? ==> ValueNamed(children, "type") == Ok(r.value.typeName) && rules.typeKnown(r.value.typeName)
    ensures r.Ok? ==> ValueNamed(children, "value") == Ok(r.value.value)
    ensures r.Ok? ==> ValueNamed(children, "unit").Ok?
                      && rules.unitFromString(r.value.typeName, ValueNamed(children, "unit").value) == Ok(r.value.unit)
    ensures r == Err(LogicError) <==> (exists d :: LoadedFields(rules, children) == Ok(d) && !ValidAttr(rules, d))
  {
    match LoadedFields(rules, children)
    case Err(e) => Err(e)
    case Ok(d) => if !ValidAttr(rules, d) then Err(LogicError) else Ok(d)
  }

  /** The fields read from the node, before the validity check. */
  function LoadedFields(rules: TypeRules, children: seq<SExpr>): (r: Result<AttrData>)
    ensures r.Err? ==> r.error == RuntimeError
  {
    if children == [] || children[0].List? || children[0].text == [] then Err(RuntimeError)
    else
      match ValueNamed(children, "type")
      case Err(_) => Err(RuntimeError)
      case Ok(typeName) =>
        if !rules.typeKnown(typeName) then Err(RuntimeError)
        else
          match ValueNamed(children, "unit")
          case Err(_) => Err(RuntimeError)
          case Ok(unitText) =>
            match rules.unitFromString(typeName, unitText)
            case Err(_) => Err(RuntimeError)
            case Ok(unit) =>
              match ValueNamed(children, "value")
              case Err(_) => Err(RuntimeError)
              case Ok(value) => Ok(AttrData(children[0].text, typeName, value, unit))
  }

  /** Loading what serialize wrote gives the attribute back, when its type is known
      and reads its own unit text back as the unit. */
  lemma LoadSerializedAttr(rules: TypeRules, d: AttrData)
    requires ValidAttr(rules, d) && rules.typeKnown(d.typeName)
    requires rules.unitFromString(d.typeName, UnitText(d.unit)) == Ok(d.unit)
    ensures LoadAttr(rules, SerializeAttr(rules, d).value) == Ok(d)
  {
    assert d.key != [];
  }

  class Attribute {
    const rules: TypeRules
    var key: string
    var typeName: string
    var value: string
    var unit: Unit

    function State(): AttrData
      reads this
    {
      AttrData(key, typeName, value, unit)
    }

    ghost predicate Valid()
      reads this
    {
      ValidAttr(rules, State())
    }

    constructor FromData(rules: TypeRules, d: AttrData)
      requires ValidAttr(rules, d)
      ensures this.rules == rules && State() == d && Valid()
    {
      this.rules := rules;
      key := d.key;
      typeName := d.typeName;
      value := d.value;
      unit := d.unit;
    }

    /** The field-wise constructor: an invalid attribute is a logic error. */
    static method Create(rules: TypeRules, d: AttrData) returns (r: Result<Attribute>)
      ensures r.Ok? <==> ValidAttr(rules, d)
      ensures r.Err? ==> r.error == LogicError
      ensures r.Ok? ==> fresh(r.value) && r.value.rules == rules && r.value.State() == d
    {
      if !ValidAttr(rules, d) {
        return Err(LogicError);
      }
      var a := new Attribute.FromData(rules, d);
      r := Ok(a);
    }

    /** The copy constructor. */
    constructor Copy(other: Attribute)
      ensures rules == other.rules && State() == other.State()
    {
      rules := other.rules;
      key := other.key;
      typeName := other.typeName;
      value := other.value;
      unit := other.unit;
    }

    /** setKey: a key that trims to nothing is a runtime error and changes nothing. */
    method SetKey(newKey: string) returns (r: Outcome)
      modifies this`key
      ensures r.Done? <==> !IsBlank(newKey)
      ensures r.Done? ==> State() == old(State()).(key := newKey)
      ensures r.Failed? ==> r.error == RuntimeError && State() == old(State())
      ensures old(Valid()) ==> Valid()
    {
      if Trimmed(newKey) == [] {
        return Failed(RuntimeError);
      }
      key := newKey;
      r := Done;
    }

    /** setTypeValueUnit: a unit the type does not allow or a value it does not accept
        is a logic error and changes nothing; otherwise all three fields are set. */
    method SetTypeValueUnit(newType: string, newValue: string, newUnit: Unit) returns (r: Outcome)
      modifies this`typeName, this`value, this`unit
      ensures r.Done? <==> rules.unitAvailable(newType, newUnit) && rules.valueValid(newType, newValue)
      ensures r.Done? ==> State() == AttrData(old(key), newType, newValue, newUnit)
      ensures r.Failed? ==> r.error == LogicError && State() == old(State())
      ensures old(Valid()) ==> Valid()
    {
      if !rules.unitAvailable(newType, newUnit) || !rules.valueValid(newType, newValue) {
        return Failed(LogicError);
      }
      typeName := newType;
      value := newValue;
      unit := newUnit;
      r := Done;
    }
  }
}
