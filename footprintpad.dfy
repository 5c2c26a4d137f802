/** library::FootprintPad: a pad of a library footprint, tied to a package pad by its
    UUID, and the token codecs of its shape and board side. */
module FootprintPads {
  import opened Results
  import opened Seqs
  import opened Geometry
  import opened Uuids
  import opened SExpressions

  datatype Shape = Round | Rect | Octagon
  datatype BoardSide = Top | Bottom | Tht

  /** A footprint pad's fields; the drill diameter only matters for a THT pad. */
  datatype FootprintPad = FootprintPad(packagePadUuid: Uuid, position: Point, rotation: Angle, shape: Shape,
                                       width: int, height: int, drillDiameter: int, boardSide: BoardSide)

  /** The board side tokens. */
  function BoardSideToken(side: BoardSide): (t: string)
    ensures t == "top" || t == "bottom" || t == "tht"
  {
    match side
    case Top => "top"
    case Bottom => "bottom"
    case Tht => "tht"
  }

  /** serializeToSExpression<BoardSide>: the side's token. */
  function SerializeBoardSide(side: BoardSide): (e: SExpr)
    ensures e.Token?
    ensures side.Top? <==> e.text == "top"
    ensures side.Bottom? <==> e.text == "bottom"
    ensures side.Tht? <==> e.text == "tht"
  {
    Token(BoardSideToken(side))
  }

  /** deserializeFromSExpression<BoardSide>: a token or string naming a side; any other
      text, or a list, is a runtime error. */
  function DeserializeBoardSide(e: SExpr): (r: Result<BoardSide>)
    ensures r.Err? ==> r.error == RuntimeError
    ensures r.Ok? <==> !e.List? && e.text in {"top", "bottom", "tht"}
  {
    match LeafText(e)
    case Err(_) => Err(RuntimeError)
    case Ok(str) =>
      if str == "top" then Ok(Top)
      else if str == "bottom" then Ok(Bottom)
      else if str == "tht" then Ok(Tht)
      else Err(RuntimeError)
  }

  /** Every side survives writing and reading back. */
  lemma BoardSideRoundTrip(side: BoardSide)
    ensures DeserializeBoardSide(SerializeBoardSide(side)) == Ok(side)
  {
  }

  /** Every accepted token is written back as the same token text. */
  lemma BoardSideTokenRoundTrip(e: SExpr)
    requires DeserializeBoardSide(e).Ok?
    ensures SerializeBoardSide(DeserializeBoardSide(e).value).text == e.text
  {
  }

  /** The shape tokens. */
  function ShapeToken(shape: Shape): (t: string)
    ensures t == "round" || t == "rect" || t == "octagon"
  {
    match shape
    case Round => "round"
    case Rect => "rect"
    case Octagon => "octagon"
  }

  /** serializeToSExpression<Shape>: the shape's token. */
  function SerializeShape(shape: Shape): (e: SExpr)
    ensures e.Token?
    ensures shape.Round? <==> e.text == "round"
    ensures shape.Rect? <==> e.text == "rect"
    ensures shape.Octagon? <==> e.text == "octagon"
  {
    Token(ShapeToken(shape))
  }

  /** deserializeFromSExpression<Shape>: a token or string naming a shape; anything
      else is a runtime error. */
  function DeserializeShape(e: SExpr): (r: Result<Shape>)
    ensures r.Err? ==> r.error == RuntimeError
    ensures r.Ok? <==> !e.List? && e.text in {"round", "rect", "octagon"}
  {
    match LeafText(e)
    case Err(_) => Err(RuntimeError)
    case Ok(str) =>
      if str == "round" then Ok(Round)
      else if str == "rect" then Ok(Rect)
      else if str == "octagon" then Ok(Octagon)
      else Err(RuntimeError)
  }

  lemma ShapeRoundTrip(shape: Shape)
    ensures DeserializeShape(SerializeShape(shape)) == Ok(shape)
  {
  }

  lemma ShapeTokenRoundTrip(e: SExpr)
    requires DeserializeShape(e).Ok?
    ensures SerializeShape(DeserializeShape(e).value).text == e.text
  {
  }

  /** getUuid: a footprint pad is identified by its package pad's UUID. */
  function PadUuid(pad: FootprintPad): (u: Uuid)
    ensures u == pad.packagePadUuid
  {
    pad.packagePadUuid
  }

  /** In a pad list with distinct UUIDs, a package pad has at most one footprint pad. */
  lemma OnePadPerPackagePad(pads: seq<FootprintPad>, i: nat, j: nat)
    requires DistinctUuids(PadUuid, pads)
    requires i < |pads| && j < |pads| && pads[i].packagePadUuid == pads[j].packagePadUuid
    ensures i == j
  {
  }

  /** operator!=: the negation of operator==. */
  function Differs(a: FootprintPad, b: FootprintPad): (r: bool)
    ensures r <==> !(a == b)
  {
    !(a == b)
  }
}
