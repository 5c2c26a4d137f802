/** eagleimport::SymbolConverter: turns an Eagle library symbol into a LibrePCB symbol.
    Eagle lengths are taken as already converted to integer nanometres and Eagle
    angles to integer microdegrees. */
module EagleImport {
  import opened Results
  import opened Geometry

  /** The LibrePCB schematic layers an Eagle symbol can use. */
  datatype Layer = SymbolPinNames | SymbolOutlines | SymbolNames | SymbolValues | SchematicReferences

  /** convertSchematicLayer: Eagle layers 93, 94, 95, 96 and 99; any other id throws. */
  function ConvertSchematicLayer(eagleLayerId: int): (r: Result<Layer>)
    ensures r.Ok? <==> eagleLayerId in {93, 94, 95, 96, 99}
    ensures r.Err? ==> r.error == GenericError
  {
    if eagleLayerId == 93 then Ok(SymbolPinNames)
    else if eagleLayerId == 94 then Ok(SymbolOutlines)
    else if eagleLayerId == 95 then Ok(SymbolNames)
    else if eagleLayerId == 96 then Ok(SymbolValues)
    else if eagleLayerId == 99 then Ok(SchematicReferences)
    else Err(GenericError)
  }

  /** The Eagle layer each LibrePCB layer comes from. */
  function EagleLayerId(layer: Layer): (id: int)
    ensures 93 <= id <= 99
  {
    match layer
    case SymbolPinNames => 93
    case SymbolOutlines => 94
    case SymbolNames => 95
    case SymbolValues => 96
    case SchematicReferences => 99
  }

  /** The layer mapping is one-to-one: every accepted id converts to the layer that
      maps back to it, and every layer is reached from its own id. */
  lemma LayerRoundTrip(eagleLayerId: int, layer: Layer)
    ensures ConvertSchematicLayer(EagleLayerId(layer)) == Ok(layer)
    ensures ConvertSchematicLayer(eagleLayerId) == Ok(layer) <==> EagleLayerId(layer) == eagleLayerId
  {
  }

  /** A text starting with `>` names an attribute: `>X` becomes the placeholder `{{X}}`. */
  function PlaceholderText(value: string): (r: string)
    ensures value != [] && value[0] == '>' ==> |r| == |value| + 3 && r[..2] == "{{" && r[|r| - 2..] == "}}"
    ensures (value == [] || value[0] != '>') ==> r == value
  {
    if value != [] && value[0] == '>' then "{{" + value[1..] + "}}" else value
  }

  const NameText := "{{NAME}}"
  const ValueText := "{{VALUE}}"
  /** 3.175 mm and 2.5 mm in nanometres. */
  const NameHeight := 3175000
  const ValueHeight := 2500000

  /** The placeholder `{{X}}` comes from exactly two texts: `>X` and `{{X}}` itself. */
  lemma PlaceholderSources(value: string, x: string)
    ensures PlaceholderText(value) == "{{" + x + "}}" <==> value == ">" + x || value == "{{" + x + "}}"
  {
    var p := "{{" + x + "}}";
    assert p[0] == '{';
    if value != [] && value[0] == '>' {
      var r := "{{" + value[1..] + "}}";
      assert PlaceholderText(value) == r;
      assert r[2..|r| - 2] == value[1..];
      assert p[2..|p| - 2] == x;
      assert value == [value[0]] + value[1..];
      if value[1..] == x {
        assert value == ">" + x;
      }
      if value == ">" + x {
        assert value[1..] == x;
      }
      assert value != p;
    } else {
      assert PlaceholderText(value) == value;
      assert value != ">" + x by {
        if value != [] { assert (">" + x)[0] == '>'; }
      }
    }
  }

  /** The converted text is the name placeholder exactly for `>NAME` and for a text
      that already reads `{{NAME}}`. */
  lemma NamePlaceholderSources(value: string)
    ensures PlaceholderText(value) == NameText <==> value == ">NAME" || value == NameText
  {
    PlaceholderSources(value, "NAME");
    assert NameText == "{{" + "NAME" + "}}" && ">NAME" == ">" + "NAME";
  }

  /** Likewise the value placeholder comes from `>VALUE` or `{{VALUE}}`. */
  lemma ValuePlaceholderSources(value: string)
    ensures PlaceholderText(value) == ValueText <==> value == ">VALUE" || value == ValueText
  {
    PlaceholderSources(value, "VALUE");
    assert ValueText == "{{" + "VALUE" + "}}" && ">VALUE" == ">" + "VALUE";
  }

  /** The Eagle elements of a symbol. */
  datatype Wire = Wire(layer: int, width: int, p1: Point, p2: Point, curve: Angle)
  datatype Rectangle = Rectangle(layer: int, p1: Point, p2: Point)
  datatype Circle = Circle(layer: int, radius: int, position: Point, width: int)
  datatype Vertex = Vertex(position: Point, curve: Angle)
  datatype EaglePolygon = EaglePolygon(layer: int, width: int, vertices: seq<Vertex>)
  datatype EagleText = EagleText(layer: int, value: string, size: int, position: Point, rotation: Angle)
  datatype EaglePin = EaglePin(name: string, position: Point, length: int, rotation: Angle)
  datatype EagleSymbol = EagleSymbol(name: string, wires: seq<Wire>, rectangles: seq<Rectangle>,
                                     circles: seq<Circle>, polygons: seq<EaglePolygon>,
                                     texts: seq<EagleText>, pins: seq<EaglePin>)

  /** The outline of a converted polygon: Path::line, Path::rect, or the vertices of
      a closed path. */
  datatype Outline = Line(p1: Point, p2: Point, curve: Angle) | Rect(p1: Point, p2: Point) | Closed(vertices: seq<Vertex>)

  /** The LibrePCB elements of a symbol; every graphical element is a grab area. */
  datatype SymPolygon = SymPolygon(layer: Layer, lineWidth: int, fill: bool, isGrabArea: bool, outline: Outline)
  datatype SymCircle = SymCircle(layer: Layer, lineWidth: int, fill: bool, isGrabArea: bool, center: Point, diameter: int)
  datatype SymText = SymText(layer: Layer, text: string, position: Point, rotation: Angle, height: int)
  datatype SymPin = SymPin(uuid: string, name: string, position: Point, length: int, rotation: Angle)

  /** ConverterDb: the UUIDs the import gives a symbol and its pins. */
  datatype Db = Db(symbolUuid: string -> string, symbolPinUuid: (string, string) -> string)

  /** UnsignedLength's constructor rejects a negative length. */
  function Unsigned(l: int): (r: Result<int>)
    ensures r.Ok? <==> l >= 0
    ensures r.Ok? ==> r.value == l
    ensures r.Err? ==> r.error == RuntimeError
  {
    if l < 0 then Err(RuntimeError) else Ok(l)
  }

  /** PositiveLength's constructor rejects a length that is not greater than zero. */
  function Positive(l: int): (r: Result<int>)
    ensures r.Ok? <==> l > 0
    ensures r.Ok? ==> r.value == l
    ensures r.Err? ==> r.error == RuntimeError
  {
    if l <= 0 then Err(RuntimeError) else Ok(l)
  }

  /** A wire becomes an unfilled line polygon of the wire's width. */
  function ConvertWire(w: Wire): (r: Result<SymPolygon>)
    ensures r.Ok? <==> ConvertSchematicLayer(w.layer).Ok? && w.width >= 0
    ensures r.Ok? ==> !r.value.fill && r.value.isGrabArea && r.value.lineWidth == w.width
    ensures r.Ok? ==> r.value.outline == Line(w.p1, w.p2, w.curve)
    ensures r.Ok? ==> EagleLayerId(r.value.layer) == w.layer
  {
    match ConvertSchematicLayer(w.layer)
    case Err(e) => Err(e)
    case Ok(layer) =>
      match Unsigned(w.width)
      case Err(e) => Err(e)
      case Ok(width) => Ok(SymPolygon(layer, width, false, true, Line(w.p1, w.p2, w.curve)))
  }

  /** A rectangle becomes a filled rectangle polygon without outline width. */
  function ConvertRectangle(rect: Rectangle): (r: Result<SymPolygon>)
    ensures r.Ok? <==> ConvertSchematicLayer(rect.layer).Ok?
    ensures r.Ok? ==> r.value.fill && r.value.isGrabArea && r.value.lineWidth == 0
    ensures r.Ok? ==> r.value.outline == Rect(rect.p1, rect.p2)
    ensures r.Ok? ==> EagleLayerId(r.value.layer) == rect.layer
  {
    match ConvertSchematicLayer(rect.layer)
    case Err(e) => Err(e)
    case Ok(layer) => Ok(SymPolygon(layer, 0, true, true, Rect(rect.p1, rect.p2)))
  }

  /** A circle of radius r becomes a circle of diameter 2r, filled exactly when its
      line width is zero; the layer, then the diameter, then the width are checked. */
  function ConvertCircle(c: Circle): (r: Result<SymCircle>)
    ensures r.Ok? <==> ConvertSchematicLayer(c.layer).Ok? && c.radius > 0 && c.width >= 0
    ensures r.Ok? ==> (r.value.fill <==> c.width == 0)
    ensures r.Ok? ==> r.value.diameter == 2 * c.radius && r.value.lineWidth == c.width && r.value.center == c.position
    ensures r.Ok? ==> r.value.isGrabArea && EagleLayerId(r.value.layer) == c.layer
    ensures r.Err? && ConvertSchematicLayer(c.layer).Ok? ==> r.error == RuntimeError
  {
    match ConvertSchematicLayer(c.layer)
    case Err(e) => Err(e)
    case Ok(layer) =>
      match Positive(c.radius * 2)
      case Err(e) => Err(e)
      case Ok(diameter) =>
        match Unsigned(c.width)
        case Err(e) => Err(e)
        case Ok(width) => Ok(SymCircle(layer, width, width == 0, true, c.position, diameter))
  }

  /** A polygon becomes an unfilled closed path through its vertices. */
  function ConvertPolygon(p: EaglePolygon): (r: Result<SymPolygon>)
    ensures r.Ok? <==> ConvertSchematicLayer(p.layer).Ok? && p.width >= 0
    ensures r.Ok? ==> !r.value.fill && r.value.isGrabArea && r.value.lineWidth == p.width
    ensures r.Ok? ==> r.value.outline == Closed(p.vertices)
    ensures r.Ok? ==> EagleLayerId(r.value.layer) == p.layer
  {
    match ConvertSchematicLayer(p.layer)
    case Err(e) => Err(e)
    case Ok(layer) =>
      match Unsigned(p.width)
      case Err(e) => Err(e)
      case Ok(width) => Ok(SymPolygon(layer, width, false, true, Closed(p.vertices)))
  }

  /** The height of a converted text: fixed for the name and value placeholders,
      twice the Eagle size otherwise. */
  function TextHeight(text: string, size: int): (h: int)
    ensures h == NameHeight || h == ValueHeight || h == 2 * size
    ensures size > 0 ==> h > 0
  {
    if text == NameText then NameHeight
    else if text == ValueText then ValueHeight
    else 2 * size
  }

  /** A text gets its placeholder form and its height. Twice the Eagle size must be
      a positive length even when a placeholder then overrides the height. */
  function ConvertText(t: EagleText): (r: Result<SymText>)
    ensures r.Ok? <==> ConvertSchematicLayer(t.layer).Ok? && t.size > 0
    ensures r.Ok? ==> r.value.text == PlaceholderText(t.value) && r.value.height > 0
    ensures r.Ok? ==> r.value.height == TextHeight(PlaceholderText(t.value), t.size)
    ensures r.Ok? ==> r.value.position == t.position && r.value.rotation == t.rotation
    ensures r.Ok? ==> EagleLayerId(r.value.layer) == t.layer
  {
    match ConvertSchematicLayer(t.layer)
    case Err(e) => Err(e)
    case Ok(layer) =>
      var text := PlaceholderText(t.value);
      match Positive(t.size * 2)
      case Err(e) => Err(e)
      case Ok(doubled) =>
        var height := if text == NameText then NameHeight else if text == ValueText then ValueHeight else doubled;
        Ok(SymText(layer, text, t.position, t.rotation, height))
  }

  /** The text heights: 3.175 mm for the name, 2.5 mm for the value, twice the size
      for everything else. */
  lemma TextHeights(t: EagleText)
    requires ConvertText(t).Ok?
    ensures t.value == ">NAME" || t.value == NameText ==> ConvertText(t).value.height == NameHeight
    ensures t.value == ">VALUE" || t.value == ValueText ==> ConvertText(t).value.height == ValueHeight
    ensures t.value != ">NAME" && t.value != NameText && t.value != ">VALUE" && t.value != ValueText
            ==> ConvertText(t).value.height == 2 * t.size
  {
    NamePlaceholderSources(t.value);
    ValuePlaceholderSources(t.value);
  }

  /** A pin's UUID is looked up from the symbol's UUID and the pin's name. */
  function ConvertPin(db: Db, symbolUuid: string, p: EaglePin): (r: Result<SymPin>)
    ensures r.Ok? <==> p.length >= 0
    ensures r.Ok? ==> r.value == SymPin(db.symbolPinUuid(symbolUuid, p.name), p.name, p.position, p.length, p.rotation)
  {
    match Unsigned(p.length)
    case Err(e) => Err(e)
    case Ok(len) => Ok(SymPin(db.symbolPinUuid(symbolUuid, p.name), p.name, p.position, len, p.rotation))
  }

  /** The pin conversion of one symbol, as used by the loop over its pins. */
  function PinConverter(db: Db, symbolUuid: string): (f: EaglePin -> Result<SymPin>)
    ensures forall p :: f(p) == ConvertPin(db, symbolUuid, p)
  {
    (p: EaglePin) => ConvertPin(db, symbolUuid, p)
  }

  /** Converting the elements of a list one after the other, as a loop that stops at
      the first exception. */
  function ConvertEach<A, B>(f: A -> Result<B>, xs: seq<A>): (r: Result<seq<B>>)
    ensures r.Ok? <==> forall i :: 0 <= i < |xs| ==> f(xs[i]).Ok?
    ensures r.Ok? ==> |r.value| == |xs| && forall i :: 0 <= i < |xs| ==> f(xs[i]) == Ok(r.value[i])
    ensures r.Err? ==> exists i :: 0 <= i < |xs| && f(xs[i]) == Err(r.error) && forall j :: 0 <= j < i ==> f(xs[j]).Ok?
  {
    if xs == [] then Ok([])
    else
      var init := xs[..|xs| - 1];
      assert forall i :: 0 <= i < |init| ==> init[i] == xs[i];
      match ConvertEach(f, init)
      case Err(e) => Err(e)
      case Ok(ys) =>
        match f(xs[|xs| - 1])
        case Err(e) => Err(e)
        case Ok(y) => Ok(ys + [y])
  }

  /** One more element converts the list one longer. */
  lemma ConvertEachSnoc<A, B>(f: A -> Result<B>, xs: seq<A>, i: nat)
    requires i < |xs| && ConvertEach(f, xs[..i]).Ok?
    ensures ConvertEach(f, xs[..i + 1])
            == match f(xs[i])
               case Err(e) => Err(e)
               case Ok(y) => Ok(ConvertEach(f, xs[..i]).value + [y])
  {
    assert xs[..i + 1][..i] == xs[..i];
  }

  /** The symbol generate builds: its UUID and name, the polygons from wires, then
      rectangles, then polygons, and the circles, texts and pins in Eagle's order. */
  datatype SymbolData = SymbolData(uuid: string, name: string, polygons: seq<SymPolygon>,
                                   circles: seq<SymCircle>, texts: seq<SymText>, pins: seq<SymPin>)

  function Converted(eagle: EagleSymbol, db: Db): Result<SymbolData>
  {
    var uuid := db.symbolUuid(eagle.name);
    match ConvertEach(ConvertWire, eagle.wires)
    case Err(e) => Err(e)
    case Ok(wires) =>
      match ConvertEach(ConvertRectangle, eagle.rectangles)
      case Err(e) => Err(e)
      case Ok(rects) =>
        match ConvertEach(ConvertCircle, eagle.circles)
        case Err(e) => Err(e)
        case Ok(circles) =>
          match ConvertEach(ConvertPolygon, eagle.polygons)
          case Err(e) => Err(e)
          case Ok(polygons) =>
            match ConvertEach(ConvertText, eagle.texts)
            case Err(e) => Err(e)
            case Ok(texts) =>
              match ConvertEach(PinConverter(db, uuid), eagle.pins)
              case Err(e) => Err(e)
              case Ok(pins) =>
                Ok(SymbolData(uuid, eagle.name, wires + rects + polygons, circles, texts, pins))
  }

  /** What a converted symbol holds: one element per Eagle element, wires and
      polygons unfilled, rectangles filled, circles filled exactly when their line
      width is zero; it converts exactly when every element does. */
  lemma ConvertedProperties(eagle: EagleSymbol, db: Db, r: Result<SymbolData>)
    requires r == Converted(eagle, db)
    ensures r.Ok? ==> r.value.uuid == db.symbolUuid(eagle.name) && r.value.name == eagle.name
    ensures r.Ok? ==> |r.value.polygons| == |eagle.wires| + |eagle.rectangles| + |eagle.polygons|
    ensures r.Ok? ==> |r.value.circles| == |eagle.circles| && |r.value.texts| == |eagle.texts|
                      && |r.value.pins| == |eagle.pins|
    ensures r.Ok? ==> forall c :: c in r.value.circles ==> (c.fill <==> c.lineWidth == 0)
    ensures r.Ok? ==> forall i :: |eagle.wires| <= i < |eagle.wires| + |eagle.rectangles| ==> r.value.polygons[i].fill
    ensures r.Ok? ==> forall i :: 0 <= i < |eagle.wires| ==> !r.value.polygons[i].fill
    ensures r.Ok? ==> forall i :: |eagle.wires| + |eagle.rectangles| <= i < |r.value.polygons| ==> !r.value.polygons[i].fill
    ensures r.Ok? <==> (forall w :: w in eagle.wires ==> ConvertWire(w).Ok?)
                       && (forall x :: x in eagle.rectangles ==> ConvertRectangle(x).Ok?)
                       && (forall c :: c in eagle.circles ==> ConvertCircle(c).Ok?)
                       && (forall p :: p in eagle.polygons ==> ConvertPolygon(p).Ok?)
                       && (forall t :: t in eagle.texts ==> ConvertText(t).Ok?)
                       && (forall p :: p in eagle.pins ==> p.length >= 0)
  {
    if r.Ok? {
      var circles := ConvertEach(ConvertCircle, eagle.circles).value;
      assert forall c :: c in circles ==> exists i :: 0 <= i < |circles| && circles[i] == c;
    }
  }

  /** library::Symbol, as far as generate fills it. */
  class Symbol {
    const uuid: string
    const name: string
    var polygons: seq<SymPolygon>
    var circles: seq<SymCircle>
    var texts: seq<SymText>
    var pins: seq<SymPin>

    function Data(): SymbolData
      reads this
    {
      SymbolData(uuid, name, polygons, circles, texts, pins)
    }

    constructor (uuid: string, name: string)
      ensures Data() == SymbolData(uuid, name, [], [], [], [])
    {
      this.uuid := uuid;
      this.name := name;
      polygons := [];
      circles := [];
      texts := [];
      pins := [];
    }
  }

  /** Converted, one list of elements at a time: the first list that fails to
      convert gives the error, and when all convert they make up the symbol. */
  lemma ConvertedInOrder(eagle: EagleSymbol, db: Db)
    ensures var w, x, c, p, t, n := ConvertEach(ConvertWire, eagle.wires), ConvertEach(ConvertRectangle, eagle.rectangles),
                                    ConvertEach(ConvertCircle, eagle.circles), ConvertEach(ConvertPolygon, eagle.polygons),
                                    ConvertEach(ConvertText, eagle.texts),
                                    ConvertEach(PinConverter(db, db.symbolUuid(eagle.name)), eagle.pins);
            Converted(eagle, db) ==
              if w.Err? then Err(w.error) else if x.Err? then Err(x.error) else if c.Err? then Err(c.error)
              else if p.Err? then Err(p.error) else if t.Err? then Err(t.error) else if n.Err? then Err(n.error)
              else Ok(SymbolData(db.symbolUuid(eagle.name), eagle.name, w.value + x.value + p.value, c.value, t.value, n.value))
  {
  }

  /** One `foreach` of generate: each element is converted and appended to `acc`; the
      first exception ends the loop. */
  method AppendEach<A, B>(f: A -> Result<B>, xs: seq<A>, acc: seq<B>) returns (r: Result<seq<B>>)
    ensures ConvertEach(f, xs).Err? ==> r == Err(ConvertEach(f, xs).error)
    ensures ConvertEach(f, xs).Ok? ==> r == Ok(acc + ConvertEach(f, xs).value)
  {
    var list := acc;
    for i := 0 to |xs|
      invariant ConvertEach(f, xs[..i]).Ok?
      invariant list == acc + ConvertEach(f, xs[..i]).value
    {
      ConvertEachSnoc(f, xs, i);
      var c := f(xs[i]);
      if c.Err? {
        FirstFailureStops(f, xs, i);
        return Err(c.error);
      }
      list := list + [c.value];
    }
    assert xs[..|xs|] == xs;
    r := Ok(list);
  }

  /** The six `foreach` loops of generate, one list of elements after the other;
      the first exception ends the conversion. */
  method ConvertAll(eagle: EagleSymbol, db: Db) returns (r: Result<SymbolData>)
    ensures r == Converted(eagle, db)
  {
    ConvertedInOrder(eagle, db);
    var uuid := db.symbolUuid(eagle.name);
    var wires := AppendEach(ConvertWire, eagle.wires, []);
    if wires.Err? {
      return Err(wires.error);
    }
    var rects := AppendEach(ConvertRectangle, eagle.rectangles, wires.value);
    if rects.Err? {
      return Err(rects.error);
    }
    var circles := AppendEach(ConvertCircle, eagle.circles, []);
    if circles.Err? {
      return Err(circles.error);
    }
    var polygons := AppendEach(ConvertPolygon, eagle.polygons, rects.value);
    if polygons.Err? {
      return Err(polygons.error);
    }
    var texts := AppendEach(ConvertText, eagle.texts, []);
    if texts.Err? {
      return Err(texts.error);
    }
    var pins := AppendEach(PinConverter(db, uuid), eagle.pins, []);
    if pins.Err? {
      return Err(pins.error);
    }
    assert wires.value == ConvertEach(ConvertWire, eagle.wires).value;
    assert circles.value == ConvertEach(ConvertCircle, eagle.circles).value;
    assert texts.value == ConvertEach(ConvertText, eagle.texts).value;
    assert pins.value == ConvertEach(PinConverter(db, uuid), eagle.pins).value;
    r := Ok(SymbolData(uuid, eagle.name, polygons.value, circles.value, texts.value, pins.value));
  }

  /** generate: a new symbol receives the converted wires, rectangles, circles,
      polygons, texts and pins, in that order; an exception on any element discards
      the symbol. */
  method Generate(eagle: EagleSymbol, db: Db) returns (r: Result<Symbol>)
    ensures r.Ok? <==> Converted(eagle, db).Ok?
    ensures r.Err? ==> r.error == Converted(eagle, db).error
    ensures r.Ok? ==> fresh(r.value) && r.value.Data() == Converted(eagle, db).value
  {
    var symbol := new Symbol(db.symbolUuid(eagle.name), eagle.name);
    var data := ConvertAll(eagle, db);
    if data.Err? {
      return Err(data.error);
    }
    symbol.polygons, symbol.circles, symbol.texts, symbol.pins := data.value.polygons, data.value.circles,
                                                                   data.value.texts, data.value.pins;
    r := Ok(symbol);
  }

  /** When the prefix converts and the next element fails, the whole list fails with
      that element's error. */
  lemma {:induction false} FirstFailureStops<A, B>(f: A -> Result<B>, xs: seq<A>, i: nat)
    requires i < |xs| && ConvertEach(f, xs[..i]).Ok? && f(xs[i]).Err?
    ensures ConvertEach(f, xs) == Err(f(xs[i]).error)
    decreases |xs|
  {
    var init := xs[..|xs| - 1];
    if i == |xs| - 1 {
      assert init == xs[..i];
    } else {
      assert init[..i] == xs[..i] && init[i] == xs[i];
      FirstFailureStops(f, init, i);
    }
  }

}
