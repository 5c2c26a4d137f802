/** library::ComponentPinSignalMapItem: which component signal (if any) a symbol pin
    is connected to, and what the pin displays. */
module PinSignalMaps {
  import opened Results
  import opened Strings
  import opened Uuids
  import opened SExpressions

  /** The display type is CmpSigPinDisplayType, identified by its name. */
  datatype PinSignalMapItem = PinSignalMapItem(pinUuid: Uuid, signalUuid: Option<Uuid>, displayType: string)

  /** operator==: pin, signal (present or not) and display type. */
  function Equal(a: PinSignalMapItem, b: PinSignalMapItem): (r: bool)
    ensures r <==> a == b
  {
    a.pinUuid == b.pinUuid && a.signalUuid == b.signalUuid && a.displayType == b.displayType
  }

  /** An optional UUID is written as the token `none` when absent. */
  function SerializeOptionalUuid(o: Option<Uuid>): (e: SExpr)
    ensures e.Token?
    ensures o.None? <==> e.text == "none"
  {
    if o.None? then Token("none")
    else Serialize(o.value)
  }

  function DeserializeOptionalUuid(e: SExpr): (r: Result<Option<Uuid>>)
    ensures r.Err? ==> r.error == RuntimeError
    ensures r.Ok? && r.value.None? <==> !e.List? && e.text == "none"
  {
    if !e.List? && e.text == "none" then Ok(None)
    else
      match Deserialize(e)
      case Err(_) => Err(RuntimeError)
      case Ok(u) => Ok(Some(u))
  }

  lemma OptionalUuidRoundTrip(o: Option<Uuid>)
    ensures DeserializeOptionalUuid(SerializeOptionalUuid(o)) == Ok(o)
  {
    if o.Some? {
      SerializeRoundTrip(o.value);
    }
  }

  /** serialize: the pin UUID, then `sig`, then `disp`. */
  function SerializeMapItem(item: PinSignalMapItem): (r: seq<SExpr>)
    ensures |r| == 3 && r[0] == Serialize(item.pinUuid)
    ensures FirstChildNamed(r, "sig") == Ok(SerializeOptionalUuid(item.signalUuid))
    ensures ValueNamed(r, "disp") == Ok(item.displayType)
  {
    var r := [Serialize(item.pinUuid), List("sig", [SerializeOptionalUuid(item.signalUuid)]),
              List("disp", [Token(item.displayType)])];
    assert "sig"[0] != "disp"[0];
    ValueNamedUnique(r, 1, "sig");
    ValueNamedUnique(r, 2, "disp");
    r
  }

  /** The loading constructor; `displayKnown` stands for CmpSigPinDisplayType::fromString
      finding the display type. */
  function LoadMapItem(children: seq<SExpr>, displayKnown: string -> bool): (r: Result<PinSignalMapItem>)
    ensures r.Err? ==> r.error == RuntimeError
    ensures r.Ok? ==> children != [] && Deserialize(children[0]) == Ok(r.value.pinUuid)
    ensures r.Ok? ==> ValueNamed(children, "disp") == Ok(r.value.displayType) && displayKnown(r.value.displayType)
  {
    if children == [] then Err(RuntimeError)
    else
      match Deserialize(children[0])
      case Err(e) => Err(e)
      case Ok(pin) =>
        match FirstChildNamed(children, "sig")
        case Err(e) => Err(e)
        case Ok(sigNode) =>
          match DeserializeOptionalUuid(sigNode)
          case Err(e) => Err(e)
          case Ok(sig) =>
            match ValueNamed(children, "disp")
            case Err(e) => Err(e)
            case Ok(disp) =>
              if !displayKnown(disp) then Err(RuntimeError) else Ok(PinSignalMapItem(pin, sig, disp))
  }

  /** Loading what serialize wrote gives the same item back, with or without a signal. */
  lemma LoadSerializedMapItem(item: PinSignalMapItem, displayKnown: string -> bool)
    requires displayKnown(item.displayType)
    ensures LoadMapItem(SerializeMapItem(item), displayKnown) == Ok(item)
  {
    SerializeRoundTrip(item.pinUuid);
    OptionalUuidRoundTrip(item.signalUuid);
  }

  /** Ordered by pin UUID (`operator<` of Uuid), equal UUIDs in any order. */
  predicate PinOrdered(s: seq<PinSignalMapItem>) {
    forall i, j :: 0 <= i < j < |s| ==> !Less(s[j].pinUuid, s[i].pinUuid)
  }

  /** The list with `x` inserted before the first item whose pin UUID is not
      less than its own. */
  function InsertByPin(x: PinSignalMapItem, s: seq<PinSignalMapItem>): (r: seq<PinSignalMapItem>)
    ensures multiset(r) == multiset(s) + multiset{x}
    ensures |r| == |s| + 1
  {
    if s == [] then [x]
    else if !Less(s[0].pinUuid, x.pinUuid) then [x] + s
    else
      assert s == [s[0]] + s[1..];
      [s[0]] + InsertByPin(x, s[1..])
  }

  /** Inserting into a list ordered by pin UUID keeps it ordered. */
  lemma {:induction false} InsertByPinOrdered(x: PinSignalMapItem, s: seq<PinSignalMapItem>)
    requires PinOrdered(s)
    ensures PinOrdered(InsertByPin(x, s))
  {
    if s == [] {
    } else if !Less(s[0].pinUuid, x.pinUuid) {
      forall j | 0 <= j < |s| ensures !Less(s[j].pinUuid, x.pinUuid) {
        LessIsStrictTotalOrder(x.pinUuid, s[0].pinUuid, s[j].pinUuid);
        LessIsStrictTotalOrder(s[0].pinUuid, s[j].pinUuid, x.pinUuid);
        LessIsStrictTotalOrder(s[j].pinUuid, x.pinUuid, s[0].pinUuid);
      }
      OrderedCons(x, s);
    } else {
      var tail := s[1..];
      assert forall j :: 0 <= j < |tail| ==> tail[j] == s[j + 1];
      assert PinOrdered(tail);
      InsertByPinOrdered(x, tail);
      var rest := InsertByPin(x, tail);
      LessIsStrictTotalOrder(s[0].pinUuid, x.pinUuid, x.pinUuid);
      NoLessAfterInsert(s[0], tail, x, rest);
      OrderedCons(s[0], rest);
    }
  }

  /** An item no later than every item of a list and than `x` is no later than
      any item of the list with `x` inserted. */
  lemma NoLessAfterInsert(h: PinSignalMapItem, t: seq<PinSignalMapItem>, x: PinSignalMapItem, r: seq<PinSignalMapItem>)
    requires forall j :: 0 <= j < |t| ==> !Less(t[j].pinUuid, h.pinUuid)
    requires !Less(x.pinUuid, h.pinUuid) && multiset(r) == multiset(t) + multiset{x}
    ensures forall j :: 0 <= j < |r| ==> !Less(r[j].pinUuid, h.pinUuid)
  {
    forall j | 0 <= j < |r| ensures !Less(r[j].pinUuid, h.pinUuid) {
      assert r[j] in multiset(r);
      if r[j] != x {
        assert r[j] in multiset(t);
        var k :| 0 <= k < |t| && t[k] == r[j];
      }
    }
  }

  /** An item no later than every item of an ordered list may go in front of it. */
  lemma OrderedCons(h: PinSignalMapItem, t: seq<PinSignalMapItem>)
    requires PinOrdered(t) && forall j :: 0 <= j < |t| ==> !Less(t[j].pinUuid, h.pinUuid)
    ensures PinOrdered([h] + t)
  {
    var r := [h] + t;
    forall i, j | 0 <= i < j < |r| ensures !Less(r[j].pinUuid, r[i].pinUuid) {
      assert r[j] == t[j - 1];
      if i > 0 { assert r[i] == t[i - 1]; }
    }
  }

  /** sortedByUuid: the same items, ordered by pin UUID. */
  function SortedByUuid(s: seq<PinSignalMapItem>): (r: seq<PinSignalMapItem>)
    ensures PinOrdered(r)
    ensures multiset(r) == multiset(s)
    ensures |r| == |s|
  {
    if s == [] then []
    else
      assert s == [s[0]] + s[1..];
      var t := SortedByUuid(s[1..]);
      InsertByPinOrdered(s[0], t);
      InsertByPin(s[0], t)
  }
}
