/** library::ComponentSymbolVariantItem: one symbol (gate) of a component's symbol
    variant, where it is placed, and the pin-signal map of its pins. */
module SymbolVariantItems {
  import opened Geometry
  import opened Uuids
  import opened SExpressions
  import opened PinSignalMaps

  datatype SymbolVariantItem = SymbolVariantItem(uuid: Uuid, symbolUuid: Uuid, symbolPos: Point, symbolRot: Angle,
                                                 isRequired: bool, suffix: string, pinSignalMap: seq<PinSignalMapItem>)

  /** operator==: the UUIDs, the required flag, the suffix and the pin-signal map; the
      position and rotation of the symbol are not compared. */
  function Equal(a: SymbolVariantItem, b: SymbolVariantItem): (r: bool)
    ensures r <==> a.(symbolPos := b.symbolPos, symbolRot := b.symbolRot) == b
  {
    a.uuid == b.uuid && a.symbolUuid == b.symbolUuid && a.isRequired == b.isRequired && a.suffix == b.suffix
    && a.pinSignalMap == b.pinSignalMap
  }

  /** Moving or rotating the symbol leaves the item equal to what it was, and the
      comparison is an equivalence. */
  lemma EqualIgnoresPlacement(a: SymbolVariantItem, b: SymbolVariantItem, c: SymbolVariantItem, pos: Point, rot: Angle)
    ensures Equal(a, a.(symbolPos := pos, symbolRot := rot))
    ensures Equal(a, a)
    ensures Equal(a, b) ==> Equal(b, a)
    ensures Equal(a, b) && Equal(b, c) ==> Equal(a, c)
  {
  }

  /** The child list the pin-signal map writes for one item. */
  function PinNode(item: PinSignalMapItem): SExpr {
    List("pin", SerializeMapItem(item))
  }

  function PinNodes(items: seq<PinSignalMapItem>): (r: seq<SExpr>)
    ensures |r| == |items|
    ensures forall i :: 0 <= i < |r| ==> r[i] == PinNode(items[i])
  {
    seq(|items|, i requires 0 <= i < |items| => PinNode(items[i]))
  }

  /** The scalar fields as serialize writes them: the UUID, the symbol, the position
      and rotation (`placement`, which Point and Angle write), the required flag and
      the suffix. */
  function ItemHead(x: SymbolVariantItem, placement: seq<SExpr>): (h: seq<SExpr>)
    ensures |h| == 4 + |placement|
    ensures h[0] == Serialize(x.uuid) && h[1] == List("symbol", [Serialize(x.symbolUuid)])
    ensures h[2..2 + |placement|] == placement
    ensures h[2 + |placement|] == List("required", [Token(BoolToken(x.isRequired))])
    ensures h[3 + |placement|] == List("suffix", [Str(x.suffix)])
  {
    [Serialize(x.uuid), List("symbol", [Serialize(x.symbolUuid)])] + placement
    + [List("required", [Token(BoolToken(x.isRequired))]), List("suffix", [Str(x.suffix)])]
  }

  /** serialize: the scalar fields first, then the pin-signal map sorted by pin UUID. */
  function SerializeItem(x: SymbolVariantItem, placement: seq<SExpr>): (r: seq<SExpr>)
    ensures |r| == 4 + |placement| + |x.pinSignalMap|
    ensures r[..4 + |placement|] == ItemHead(x, placement)
    ensures r[4 + |placement|..] == PinNodes(SortedByUuid(x.pinSignalMap))
  {
    var head := ItemHead(x, placement);
    var r := head + PinNodes(SortedByUuid(x.pinSignalMap));
    assert r[..|head|] == head;
    assert r[|head|..] == PinNodes(SortedByUuid(x.pinSignalMap));
    r
  }
}
