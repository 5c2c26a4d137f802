/** Text: a text element of a symbol or footprint. Its setters tell the registered
    observers about a change, and only about a real change. */
module Texts {
  import opened Results
  import opened Geometry
  import opened Uuids
  import opened SExpressions

  datatype HAlign = Left | HCenter | Right
  datatype VAlign = Top | VCenter | Bottom
  datatype Alignment = Alignment(h: HAlign, v: VAlign)

  /** The seven fields of a text; the height is in nanometres. */
  datatype TextData = TextData(uuid: Uuid, layerName: string, text: string, position: Point,
                               rotation: Angle, height: int, align: Alignment)

  /** checkAttributesValidity: a text needs some text and a positive height. */
  predicate ValidText(d: TextData) {
    d.text != [] && d.height > 0
  }

  /** operator==: field by field, the UUID included. */
  function Equal(a: TextData, b: TextData): (r: bool)
    ensures r <==> a == b
  {
    a.uuid == b.uuid && a.layerName == b.layerName && a.text == b.text && a.position == b.position
    && a.rotation == b.rotation && a.height == b.height && a.align == b.align
  }

  /** A setter call: the field it sets and the new value, which is also what the
      observers are told. */
  datatype TextChange =
    | LayerNameChanged(layerName: string)
    | TextChanged(text: string)
    | PositionChanged(position: Point)
    | RotationChanged(rotation: Angle)
    | HeightChanged(height: int)
    | AlignChanged(align: Alignment)

  /** The text after a setter call. */
  function Apply(d: TextData, c: TextChange): (r: TextData)
    ensures r.uuid == d.uuid
  {
    match c
    case LayerNameChanged(x) => d.(layerName := x)
    case TextChanged(x) => d.(text := x)
    case PositionChanged(x) => d.(position := x)
    case RotationChanged(x) => d.(rotation := x)
    case HeightChanged(x) => d.(height := x)
    case AlignChanged(x) => d.(align := x)
  }

  /** Whether a setter call notifies: the new value differs from the field's value. */
  function Changes(d: TextData, c: TextChange): (b: bool)
    ensures b <==> Apply(d, c) != d
  {
    match c
    case LayerNameChanged(x) => x != d.layerName
    case TextChanged(x) => x != d.text
    case PositionChanged(x) => x != d.position
    case RotationChanged(x) => x != d.rotation
    case HeightChanged(x) => x != d.height
    case AlignChanged(x) => x != d.align
  }

  /** Repeating a setter call changes nothing more and notifies nobody. */
  lemma SetTwiceNotifiesOnce(d: TextData, c: TextChange)
    ensures Apply(Apply(d, c), c) == Apply(d, c)
    ensures !Changes(Apply(d, c), c)
  {
  }

  /** serialize: an invalid text is a logic error; otherwise the UUID, the layer token
      and the text, followed by the alignment, height, position and rotation nodes
      (`geometry`), which their own types write. */
  function SerializeText(d: TextData, geometry: seq<SExpr>): (r: Result<seq<SExpr>>)
    ensures r.Ok? <==> ValidText(d)
    ensures r.Err? ==> r.error == LogicError
    ensures r.Ok? ==> |r.value| >= 3 && r.value[0] == Serialize(d.uuid)
    ensures r.Ok? && ChildrenNamed(geometry, "layer") == [] ==> ValueNamed(r.value, "layer") == Ok(d.layerName)
    ensures r.Ok? && ChildrenNamed(geometry, "value") == [] ==> ValueNamed(r.value, "value") == Ok(d.text)
  {
    if !ValidText(d) then Err(LogicError)
    else
      var head := [Serialize(d.uuid), List("layer", [Token(d.layerName)]), List("value", [Str(d.text)])];
      ChildrenNamedAppend(head, geometry, "layer");
      ChildrenNamedAppend(head, geometry, "value");
      assert "layer" != "value" by { assert "layer"[0] != "value"[0]; }
      assert ChildrenNamed(head[2..], "value") == [head[2]];
      assert ChildrenNamed(head, "value") == [head[2]];
      Ok(head + geometry)
  }

  /** The loading constructor. A valid UUID as first child gives the UUID, and the
      text comes from `value`; otherwise the first child is the text and the UUID is
      `randomUuid`, a randomly generated one. The position, rotation, height and alignment are read
      by their own types and passed in. A height that is not positive is an error. */
  function LoadText(children: seq<SExpr>, randomUuid: Uuid, position: Point, rotation: Angle, height: int,
                    align: Alignment): (r: Result<TextData>)
    ensures r.Ok? ==> ValidText(r.value)
    ensures height <= 0 ==> r == Err(RuntimeError)
    ensures r.Err? ==> r.error == RuntimeError
    ensures r.Ok? ==> r.value.position == position && r.value.rotation == rotation && r.value.height == height
                      && r.value.align == align
    ensures r.Ok? ==> children != [] && !children[0].List? && ValueNamed(children, "layer") == Ok(r.value.layerName)
    ensures r.Ok? && IsValidUuidText(children[0].text) ==>
      ToStr(r.value.uuid) == children[0].text && ValueNamed(children, "value") == Ok(r.value.text)
    ensures r.Ok? && !IsValidUuidText(children[0].text) ==> r.value.uuid == randomUuid && r.value.text == children[0].text
  {
    match NonEmptyValueNamed(children, "layer")
    case Err(e) => Err(e)
    case Ok(layer) =>
      if children == [] || children[0].List? then Err(RuntimeError)
      else if IsValidUuidText(children[0].text) then
        match Deserialize(children[0])
        case Err(e) => Err(e)
        case Ok(uuid) =>
          match NonEmptyValueNamed(children, "value")
          case Err(e) => Err(e)
          case Ok(text) =>
            if !(height > 0) then Err(RuntimeError)
            else Ok(TextData(uuid, layer, text, position, rotation, height, align))
      else
        match NonEmptyLeaf(children[0])
        case Err(e) => Err(e)
        case Ok(text) =>
          if !(height > 0) then Err(RuntimeError)
          else Ok(TextData(randomUuid, layer, text, position, rotation, height, align))
  }

  /** Loading what serialize wrote gives the same text back, for a text with a
      non-NULL UUID and a layer name. */
  lemma LoadSerializedText(d: TextData, geometry: seq<SExpr>, randomUuid: Uuid)
    requires ValidText(d) && !IsNull(d.uuid) && d.layerName != []
    requires ChildrenNamed(geometry, "layer") == [] && ChildrenNamed(geometry, "value") == []
    ensures LoadText(SerializeText(d, geometry).value, randomUuid, d.position, d.rotation, d.height, d.align) == Ok(d)
  {
    SerializeRoundTrip(d.uuid);
  }

  /** An object told about text changes. */
  class TextObserver {
    var received: seq<TextChange>

    constructor ()
      ensures received == []
    {
      received := [];
    }
  }

  class Text {
    var uuid: Uuid
    var layerName: string
    var text: string
    var position: Point
    var rotation: Angle
    var height: int
    var align: Alignment
    var observers: set<TextObserver>

    function State(): TextData
      reads this
    {
      TextData(uuid, layerName, text, position, rotation, height, align)
    }

    /** The field-wise constructor; no observer yet. */
    constructor (d: TextData)
      ensures State() == d && observers == {}
    {
      uuid := d.uuid;
      layerName := d.layerName;
      text := d.text;
      position := d.position;
      rotation := d.rotation;
      height := d.height;
      align := d.align;
      observers := {};
    }

    /** The copy constructor: the same fields, the observers are not copied. */
    constructor Copy(other: Text)
      ensures State() == other.State() && observers == {}
    {
      uuid := other.uuid;
      layerName := other.layerName;
      text := other.text;
      position := other.position;
      rotation := other.rotation;
      height := other.height;
      align := other.align;
      observers := {};
    }

    /** Text(uuid, other): a copy under another UUID. */
    constructor CopyWithUuid(uuid: Uuid, other: Text)
      ensures State() == other.State().(uuid := uuid) && observers == {}
    {
      this.uuid := uuid;
      layerName := other.layerName;
      text := other.text;
      position := other.position;
      rotation := other.rotation;
      height := other.height;
      align := other.align;
      observers := {};
    }

    /** operator=: every field of `rhs`; the observers stay and are not told. */
    method Assign(rhs: Text)
      modifies this`uuid, this`layerName, this`text, this`position, this`rotation, this`height, this`align
      ensures State() == old(rhs.State())
      ensures Equal(State(), old(rhs.State()))
    {
      var d := rhs.State();
      uuid := d.uuid;
      layerName := d.layerName;
      text := d.text;
      position := d.position;
      rotation := d.rotation;
      height := d.height;
      align := d.align;
    }

    /** registerObserver: a set insertion, so registering twice is registering once. */
    method RegisterObserver(o: TextObserver)
      modifies this`observers
      ensures observers == old(observers) + {o}
    {
      observers := observers + {o};
    }

    method UnregisterObserver(o: TextObserver)
      modifies this`observers
      ensures observers == old(observers) - {o}
    {
      observers := observers - {o};
    }

    /** The loop over the observers: each is told about the change once. */
    method Notify(c: TextChange)
      modifies observers
      ensures forall o :: o in observers ==> o.received == old(o.received) + [c]
    {
      var todo := observers;
      while todo != {}
        invariant todo <= observers
        invariant forall o :: o in observers && o !in todo ==> o.received == old(o.received) + [c]
        invariant forall o :: o in todo ==> o.received == old(o.received)
        decreases |todo|
      {
        var o :| o in todo;
        o.received := o.received + [c];
        todo := todo - {o};
      }
    }

    /** The setters: nothing happens when the value is the field's value; otherwise
        the field takes it and every observer is told. */
    method SetLayerName(name: string)
      modifies this`layerName, observers
      ensures State() == Apply(old(State()), LayerNameChanged(name))
      ensures forall o :: o in observers ==> o.received == old(o.received) + if Changes(old(State()), LayerNameChanged(name)) then [LayerNameChanged(name)] else []
      ensures !Changes(old(State()), LayerNameChanged(name)) ==> unchanged(observers)
    {
      if name == layerName {
        return;
      }
      layerName := name;
      Notify(LayerNameChanged(name));
    }

    method SetText(text: string)
      modifies this`text, observers
      ensures State() == Apply(old(State()), TextChanged(text))
      ensures forall o :: o in observers ==> o.received == old(o.received) + if Changes(old(State()), TextChanged(text)) then [TextChanged(text)] else []
      ensures !Changes(old(State()), TextChanged(text)) ==> unchanged(observers)
    {
      if text == this.text {
        return;
      }
      this.text := text;
      Notify(TextChanged(text));
    }

    method SetPosition(pos: Point)
      modifies this`position, observers
      ensures State() == Apply(old(State()), PositionChanged(pos))
      ensures forall o :: o in observers ==> o.received == old(o.received) + if Changes(old(State()), PositionChanged(pos)) then [PositionChanged(pos)] else []
      ensures !Changes(old(State()), PositionChanged(pos)) ==> unchanged(observers)
    {
      if pos == position {
        return;
      }
      position := pos;
      Notify(PositionChanged(pos));
    }

    method SetRotation(rotation: Angle)
      modifies this`rotation, observers
      ensures State() == Apply(old(State()), RotationChanged(rotation))
      ensures forall o :: o in observers ==> o.received == old(o.received) + if Changes(old(State()), RotationChanged(rotation)) then [RotationChanged(rotation)] else []
      ensures !Changes(old(State()), RotationChanged(rotation)) ==> unchanged(observers)
    {
      if rotation == this.rotation {
        return;
      }
      this.rotation := rotation;
      Notify(RotationChanged(rotation));
    }

    method SetHeight(height: int)
      modifies this`height, observers
      ensures State() == Apply(old(State()), HeightChanged(height))
      ensures forall o :: o in observers ==> o.received == old(o.received) + if Changes(old(State()), HeightChanged(height)) then [HeightChanged(height)] else []
      ensures !Changes(old(State()), HeightChanged(height)) ==> unchanged(observers)
    {
      if height == this.height {
        return;
      }
      this.height := height;
      Notify(HeightChanged(height));
    }

    method SetAlign(align: Alignment)
      modifies this`align, observers
      ensures State() == Apply(old(State()), AlignChanged(align))
      ensures forall o :: o in observers ==> o.received == old(o.received) + if Changes(old(State()), AlignChanged(align)) then [AlignChanged(align)] else []
      ensures !Changes(old(State()), AlignChanged(align)) ==> unchanged(observers)
    {
      if align == this.align {
        return;
      }
      this.align := align;
      Notify(AlignChanged(align));
    }
  }
}
