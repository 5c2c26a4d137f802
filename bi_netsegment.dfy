/** A board net segment (BI_NetSegment): the vias, netpoints and netlines of one
    piece of copper routing, kept in three lists, together with whether the
    segment and each of its elements is currently added to the board. Batch
    changes are transactions: each completed step records a compensating action,
    and any failure, including the final cohesion check, runs them backwards. */
module BoardNetSegments {
  import opened Results
  import opened Seqs
  import opened Uuids
  import opened Geometry
  import opened NetGraph
  import opened Circuits

  /** A graphics layer as far as routing cares: its name and whether it is copper. */
  datatype Layer = Layer(name: string, isCopper: bool)

  /** BI_Via: identified by its UUID and owned by one segment. */
  class Via {
    const uuid: Uuid
    const segment: NetSegment

    constructor (segment: NetSegment, uuid: Uuid)
      ensures this.segment == segment && this.uuid == uuid
    {
      this.segment := segment;
      this.uuid := uuid;
    }
  }

  /** BI_NetPoint: a vertex of the segment. The model keeps the owning segment, the
      layer and the pad or via it is attached to fixed after construction; the
      position and the netlines registered with it change. A footprint pad is named
      by a handle. */
  class NetPoint {
    const segment: NetSegment
    const uuid: Uuid
    const layer: Layer
    const pad: Option<nat>
    const via: Via?
    var position: Point
    var lines: seq<NetLine>

    /** The constructors for a free netpoint, a netpoint on a pad and a netpoint on a
        via, and the remapping copy constructor (which is given the segment, pad
        and via of the copy) all come down to this one. */
    constructor (segment: NetSegment, uuid: Uuid, layer: Layer, position: Point, pad: Option<nat>, via: Via?)
      ensures this.segment == segment && this.uuid == uuid && this.layer == layer
      ensures this.position == position && this.pad == pad && this.via == via
      ensures lines == []
      ensures !IsUsed()
    {
      this.segment := segment;
      this.uuid := uuid;
      this.layer := layer;
      this.position := position;
      this.pad := pad;
      this.via := via;
      lines := [];
    }

    predicate IsAttachedToPad() { pad.Some? }

    predicate IsAttachedToVia() { via != null }

    /** isAttached: on a pad or on a via. */
    function IsAttached(): (b: bool)
      ensures b <==> pad.Some? || via != null
    {
      IsAttachedToPad() || IsAttachedToVia()
    }

    /** isUsed: some netline is registered with the netpoint. */
    function IsUsed(): (b: bool)
      reads this
      ensures b <==> exists l :: l in lines
    {
      assert |lines| > 0 ==> lines[0] in lines;
      |lines| > 0
    }

    /** getIsMirrored: netpoints are never mirrored. */
    function IsMirrored(): (b: bool)
      ensures !b
    {
      false
    }
  }

  /** BI_NetLine: an edge between two netpoints, with a strictly positive width. */
  class NetLine {
    const uuid: Uuid
    const start: NetPoint
    const end: NetPoint
    var width: PositiveLength
    var selected: bool

    constructor (uuid: Uuid, start: NetPoint, end: NetPoint, width: PositiveLength)
      ensures this.uuid == uuid && this.start == start && this.end == end && this.width == width
      ensures !selected
    {
      this.uuid := uuid;
      this.start := start;
      this.end := end;
      this.width := width;
      selected := false;
    }

    /** The remapping copy constructor: same UUID and width, new endpoints. */
    constructor Copy(other: NetLine, start: NetPoint, end: NetPoint)
      ensures uuid == other.uuid && width == other.width
      ensures this.start == start && this.end == end
      ensures !selected
    {
      uuid := other.uuid;
      this.start := start;
      this.end := end;
      width := other.width;
      selected := false;
    }

    /** getNetSegment: the segment of the start point. */
    function Segment(): NetSegment { start.segment }

    /** getOtherPoint: the opposite endpoint, or null for a netpoint the line does not touch. */
    function OtherPoint(p: NetPoint): (q: NetPoint?)
      ensures q != null <==> p == start || p == end
      ensures q != null ==> NetGraph.OtherPoint((start, end), p) == Some(q as NetPoint)
    {
      if p == start then end else if p == end then start else null
    }

    /** The position the netline reports: the centre of its endpoints. */
    function Position(): (c: Point)
      reads start, end
      ensures c == Centre(end.position, start.position)
      ensures -1 <= start.position.x + end.position.x - 2 * c.x <= 1
      ensures -1 <= start.position.y + end.position.y - 2 * c.y <= 1
      ensures start.position == end.position ==> c == start.position
    {
      CentreSymmetric(start.position, end.position);
      Centre(start.position, end.position)
    }

    method SetWidth(w: PositiveLength)
      modifies this
      ensures width == w && selected == old(selected)
    {
      width := w;
    }
  }

  /** What the batch operations need to know about one kind of element: its
      UUID, its owning segment, and the element as an object. */
  datatype ElementKind<!E> = ElementKind(uuidOf: E -> Uuid, segmentOf: E -> NetSegment, asObject: E -> object)

  function ViaUuid(v: Via): Uuid { v.uuid }
  function ViaSegment(v: Via): NetSegment { v.segment }
  function ViaObject(v: Via): object { v }
  function PointUuid(p: NetPoint): Uuid { p.uuid }
  function PointSegment(p: NetPoint): NetSegment { p.segment }
  function PointObject(p: NetPoint): object { p }
  function LineUuid(l: NetLine): Uuid { l.uuid }
  function LineSegment(l: NetLine): NetSegment { l.Segment() }
  function LineObject(l: NetLine): object { l }

  const Vias: ElementKind<Via> := ElementKind(ViaUuid, ViaSegment, ViaObject)
  const Points: ElementKind<NetPoint> := ElementKind(PointUuid, PointSegment, PointObject)
  const Lines: ElementKind<NetLine> := ElementKind(LineUuid, LineSegment, LineObject)

  /** The objects of a list of elements. */
  ghost function Objs<E>(k: ElementKind<E>, list: seq<E>): set<object> {
    set e | e in list :: k.asObject(e)
  }

  /** No element twice, and no two elements with the same UUID. */
  ghost predicate UniqueUuids<E>(k: ElementKind<E>, list: seq<E>) {
    NoDup(list) && forall x, y :: x in list && y in list && k.uuidOf(x) == k.uuidOf(y) ==> x == y
  }

  /** Every element of the list belongs to `seg`. */
  ghost predicate OwnedBy<E>(k: ElementKind<E>, list: seq<E>, seg: NetSegment) {
    forall e :: e in list ==> k.segmentOf(e) == seg
  }

  /** The state the batch operations change: whether the segment is on the board,
      the three lists, and which elements are on the board. */
  datatype SegState = SegState(added: bool, vias: seq<Via>, points: seq<NetPoint>, lines: seq<NetLine>, onBoard: set<object>)

  ghost function Elements(s: SegState): set<object> {
    Objs(Vias, s.vias) + Objs(Points, s.points) + Objs(Lines, s.lines)
  }

  /** isUsed: the segment has an element. */
  predicate IsUsedState(s: SegState) {
    s.vias != [] || s.points != [] || s.lines != []
  }

  /** The invariant of a segment: no duplicate elements or UUIDs, every element
      owned by the segment, and exactly its elements on the board while it is
      on the board (none otherwise). Cohesion is not part of it. */
  ghost predicate ValidSegState(seg: NetSegment, s: SegState) {
    UniqueUuids(Vias, s.vias) && UniqueUuids(Points, s.points) && UniqueUuids(Lines, s.lines)
    && OwnedBy(Vias, s.vias, seg) && OwnedBy(Points, s.points, seg) && OwnedBy(Lines, s.lines, seg)
    && s.onBoard == (if s.added then Elements(s) else {})
  }

  /** A segment off the board whose lists have distinct UUIDs and belong to it is
      valid; the empty segment is one. */
  lemma DetachedSegValid(seg: NetSegment, s: SegState)
    requires !s.added && s.onBoard == {}
    requires UniqueUuids(Vias, s.vias) && UniqueUuids(Points, s.points) && UniqueUuids(Lines, s.lines)
    requires OwnedBy(Vias, s.vias, seg) && OwnedBy(Points, s.points, seg) && OwnedBy(Lines, s.lines, seg)
    ensures ValidSegState(seg, s)
  {
  }

  function ViaOf(p: NetPoint): Option<Via> {
    if p.via == null then None else Some(p.via as Via)
  }

  function LineEnds(lines: seq<NetLine>): (r: seq<(NetPoint, NetPoint)>)
    ensures |r| == |lines| && forall i :: 0 <= i < |lines| ==> r[i] == (lines[i].start, lines[i].end)
  {
    seq(|lines|, i requires 0 <= i < |lines| => (lines[i].start, lines[i].end))
  }

  /** The connectivity graph of a segment state. */
  function SegGraph(s: SegState): Graph<NetPoint, Via> {
    Graph(s.points, LineEnds(s.lines), ViaOf)
  }

  /** Two netpoints are joined through a via only when both are attached to it. */
  lemma ViaHopNeedsAttachedPoints(s: SegState, p: NetPoint, q: NetPoint)
    requires ViaNeighbour(SegGraph(s), p, q)
    ensures p.IsAttachedToVia() && q.IsAttachedToVia() && p.via == q.via && q in s.points
  {
  }

  /** One batch of addElements, element by element: the element must not be in the
      list yet and must belong to `seg` (LogicError), no listed element may have
      its UUID (RuntimeError), and its addToBoard must succeed (CollaboratorError). */
  function AddScan<E(==)>(k: ElementKind<E>, seg: NetSegment, failing: set<object>, list: seq<E>, batch: seq<E>): Result<seq<E>>
    decreases |batch|
  {
    if batch == [] then Ok(list)
    else
      var e := batch[0];
      if e in list || k.segmentOf(e) != seg then Err(LogicError)
      else if exists x :: x in list && k.uuidOf(x) == k.uuidOf(e) then Err(RuntimeError)
      else if k.asObject(e) in failing then Err(CollaboratorError)
      else AddScan(k, seg, failing, list + [e], batch[1..])
  }

  /** The scan at position `i` of a batch: the three checks on that element, then
      the scan of the rest. */
  lemma AddScanAt<E>(k: ElementKind<E>, seg: NetSegment, failing: set<object>, list: seq<E>, batch: seq<E>,
                     i: nat, isNew: bool, clash: bool)
    requires i < |batch|
    requires isNew <==> batch[i] !in list && k.segmentOf(batch[i]) == seg
    requires clash <==> exists x :: x in list && k.uuidOf(x) == k.uuidOf(batch[i])
    ensures !isNew ==> AddScan(k, seg, failing, list, batch[i..]) == Err(LogicError)
    ensures isNew && clash ==> AddScan(k, seg, failing, list, batch[i..]) == Err(RuntimeError)
    ensures isNew && !clash && k.asObject(batch[i]) in failing ==>
              AddScan(k, seg, failing, list, batch[i..]) == Err(CollaboratorError)
    ensures isNew && !clash && k.asObject(batch[i]) !in failing ==>
              AddScan(k, seg, failing, list, batch[i..]) == AddScan(k, seg, failing, list + [batch[i]], batch[i + 1..])
  {
    assert batch[i..][0] == batch[i] && batch[i..][1..] == batch[i + 1..];
  }

  /** One batch of removeElements: the element must be listed (LogicError) and its
      removeFromBoard must succeed (CollaboratorError). */
  function RemoveScan<E(==)>(k: ElementKind<E>, failing: set<object>, list: seq<E>, batch: seq<E>): Result<seq<E>>
    decreases |batch|
  {
    if batch == [] then Ok(list)
    else
      var e := batch[0];
      if e !in list then Err(LogicError)
      else if k.asObject(e) in failing then Err(CollaboratorError)
      else RemoveScan(k, failing, RemoveOne(list, e), batch[1..])
  }

  /** A batch that is accepted is appended as given; every element of it was new,
      owned by the segment, had a fresh UUID and attached without failure. */
  lemma {:induction false} AddScanOk<E>(k: ElementKind<E>, seg: NetSegment, failing: set<object>, list: seq<E>, batch: seq<E>)
    requires AddScan(k, seg, failing, list, batch).Ok?
    ensures AddScan(k, seg, failing, list, batch).value == list + batch
    ensures forall e :: e in batch ==> e !in list && k.segmentOf(e) == seg && k.asObject(e) !in failing
    ensures forall e, x :: e in batch && x in list ==> k.uuidOf(e) != k.uuidOf(x)
    ensures UniqueUuids(k, list) ==> UniqueUuids(k, list + batch)
    decreases |batch|
  {
    if batch != [] {
      var e := batch[0];
      AddScanOk(k, seg, failing, list + [e], batch[1..]);
      assert batch == [e] + batch[1..];
      assert list + batch == (list + [e]) + batch[1..];
      if UniqueUuids(k, list) {
        assert NoDup(list + [e]) by {
          forall i, j | 0 <= i < j < |list + [e]| ensures (list + [e])[i] != (list + [e])[j] {
            if j == |list| { assert (list + [e])[i] in list; }
          }
        }
      }
    }
  }

  /** One step of a remove batch: its first element was listed, detached without
      failure and taken out of the list. */
  lemma RemoveScanStep<E>(k: ElementKind<E>, failing: set<object>, list: seq<E>, batch: seq<E>)
    requires batch != [] && RemoveScan(k, failing, list, batch).Ok?
    ensures batch[0] in list && k.asObject(batch[0]) !in failing
    ensures RemoveScan(k, failing, list, batch) == RemoveScan(k, failing, RemoveOne(list, batch[0]), batch[1..])
  {
  }

  /** A non-empty sequence holds its head once more than its tail. */
  lemma HeadMultiset<T>(s: seq<T>)
    requires s != []
    ensures multiset(s) == multiset{s[0]} + multiset(s[1..])
  {
    assert s == [s[0]] + s[1..];
  }

  /** Taking one element `e` off both a list and its batch leaves the rest of the
      removal unchanged. */
  lemma PeelOne<T>(mb: multiset<T>, ml: multiset<T>, mr: multiset<T>, mt: multiset<T>, mv: multiset<T>, e: T)
    requires e in ml && mb == multiset{e} + mt && mr == ml - multiset{e}
    requires mt <= mr && mv == mr - mt
    ensures mb <= ml && mv == ml - mb
  {
    forall z ensures mb[z] <= ml[z] && mv[z] == ml[z] - mb[z] {
      if z == e { assert ml[z] >= 1; }
    }
  }

  /** A batch that is accepted leaves the list with exactly the batch taken out. */
  lemma {:induction false} RemoveScanOk<E>(k: ElementKind<E>, failing: set<object>, list: seq<E>, batch: seq<E>)
    requires RemoveScan(k, failing, list, batch).Ok?
    ensures multiset(batch) <= multiset(list)
    ensures multiset(RemoveScan(k, failing, list, batch).value) == multiset(list) - multiset(batch)
    decreases |batch|
  {
    if batch != [] {
      var e, tail := batch[0], batch[1..];
      var rest := RemoveOne(list, e);
      RemoveScanStep(k, failing, list, batch);
      RemoveScanOk(k, failing, rest, tail);
      RemoveOneMultiset(list, e);
      HeadMultiset(batch);
      var v := RemoveScan(k, failing, rest, tail).value;
      PeelOne(multiset(batch), multiset(list), multiset(rest), multiset(tail), multiset(v), e);
    }
  }

  /** Every element of an accepted batch came off the board without failure. */
  lemma {:induction false} RemoveScanDetached<E>(k: ElementKind<E>, failing: set<object>, list: seq<E>, batch: seq<E>)
    requires RemoveScan(k, failing, list, batch).Ok?
    ensures forall e :: e in batch ==> k.asObject(e) !in failing
    decreases |batch|
  {
    if batch != [] {
      RemoveScanStep(k, failing, list, batch);
      RemoveScanDetached(k, failing, RemoveOne(list, batch[0]), batch[1..]);
      assert forall e :: e in batch ==> e == batch[0] || e in batch[1..];
    }
  }

  /** On a list without duplicates an accepted batch had none either, and the
      result holds exactly the listed elements that were not in the batch. */
  lemma RemoveScanNoDup<E>(k: ElementKind<E>, failing: set<object>, list: seq<E>, batch: seq<E>)
    requires RemoveScan(k, failing, list, batch).Ok? && NoDup(list)
    ensures NoDup(batch) && NoDup(RemoveScan(k, failing, list, batch).value)
    ensures forall x :: x in RemoveScan(k, failing, list, batch).value <==> x in list && x !in batch
  {
    var r := RemoveScan(k, failing, list, batch).value;
    RemoveScanOk(k, failing, list, batch);
    forall z ensures multiset(list)[z] <= 1 { NoDupCount(list, z); }
    CountNoDup(batch);
    CountNoDup(r);
    forall x ensures x in r <==> x in list && x !in batch {
      assert x in r <==> multiset(r)[x] > 0;
      assert x in list <==> multiset(list)[x] > 0;
      assert x in batch <==> multiset(batch)[x] > 0;
    }
  }

  lemma ObjsConcat<E>(k: ElementKind<E>, a: seq<E>, b: seq<E>)
    ensures Objs(k, a + b) == Objs(k, a) + Objs(k, b)
  {
    assert forall e :: e in a + b <==> e in a || e in b;
  }

  /** An element of one kind is never an object of another kind, and is among
      the objects of a list exactly when it is in the list. */
  lemma ViaObjs(v: Via, vs: seq<Via>, ps: seq<NetPoint>, ls: seq<NetLine>)
    ensures v in Objs(Vias, vs) <==> v in vs
    ensures v !in Objs(Points, ps) && v !in Objs(Lines, ls)
  {
  }

  lemma PointObjs(p: NetPoint, vs: seq<Via>, ps: seq<NetPoint>, ls: seq<NetLine>)
    ensures p in Objs(Points, ps) <==> p in ps
    ensures p !in Objs(Vias, vs) && p !in Objs(Lines, ls)
  {
  }

  lemma LineObjs(l: NetLine, vs: seq<Via>, ps: seq<NetPoint>, ls: seq<NetLine>)
    ensures l in Objs(Lines, ls) <==> l in ls
    ensures l !in Objs(Vias, vs) && l !in Objs(Points, ps)
  {
  }

  /** The compensating actions recorded by the batch operations: take an added
      element off the board and out of its list, put a removed element back on
      the board and at the end of its list, or only change its on-board state. */
  datatype Undo =
    | DropVia(via: Via) | DropPoint(point: NetPoint) | DropLine(line: NetLine)
    | RestoreVia(via: Via) | RestorePoint(point: NetPoint) | RestoreLine(line: NetLine)
    | Detach(element: object) | Attach(element: object)

  function ApplyUndo(s: SegState, u: Undo): SegState {
    match u
    case DropVia(v) => s.(vias := RemoveOne(s.vias, v), onBoard := s.onBoard - {v})
    case DropPoint(p) => s.(points := RemoveOne(s.points, p), onBoard := s.onBoard - {p})
    case DropLine(l) => s.(lines := RemoveOne(s.lines, l), onBoard := s.onBoard - {l})
    case RestoreVia(v) => s.(vias := s.vias + [v], onBoard := s.onBoard + {v})
    case RestorePoint(p) => s.(points := s.points + [p], onBoard := s.onBoard + {p})
    case RestoreLine(l) => s.(lines := s.lines + [l], onBoard := s.onBoard + {l})
    case Detach(o) => s.(onBoard := s.onBoard - {o})
    case Attach(o) => s.(onBoard := s.onBoard + {o})
  }

  /** The state after running a log of compensating actions, the most recent first. */
  function Unwound(s: SegState, log: seq<Undo>): SegState
    decreases |log|
  {
    if log == [] then s else Unwound(ApplyUndo(s, log[|log| - 1]), log[..|log| - 1])
  }

  lemma UnwoundLast(s: SegState, log: seq<Undo>, u: Undo)
    ensures Unwound(s, log + [u]) == Unwound(ApplyUndo(s, u), log)
  {
    assert (log + [u])[..|log|] == log;
  }

  /** The same lists up to the order of their elements, and the same on-board state. */
  ghost predicate SameUpToOrder(a: SegState, b: SegState) {
    a.added == b.added && a.onBoard == b.onBoard
    && multiset(a.vias) == multiset(b.vias) && multiset(a.points) == multiset(b.points)
    && multiset(a.lines) == multiset(b.lines)
  }

  lemma ApplyUndoRespectsOrder(a: SegState, b: SegState, u: Undo)
    requires SameUpToOrder(a, b)
    ensures SameUpToOrder(ApplyUndo(a, u), ApplyUndo(b, u))
  {
    match u
    case DropVia(v) =>
      RemoveOneMultiset(a.vias, v); RemoveOneMultiset(b.vias, v);
      assert v in a.vias <==> v in multiset(b.vias);
    case DropPoint(p) =>
      RemoveOneMultiset(a.points, p); RemoveOneMultiset(b.points, p);
      assert p in a.points <==> p in multiset(b.points);
    case DropLine(l) =>
      RemoveOneMultiset(a.lines, l); RemoveOneMultiset(b.lines, l);
      assert l in a.lines <==> l in multiset(b.lines);
    case RestoreVia(v) =>
    case RestorePoint(p) =>
    case RestoreLine(l) =>
    case Detach(o) =>
    case Attach(o) =>
  }

  /** Unwinding a log from two states that differ only in list order gives two
      states that differ only in list order. */
  lemma {:induction false} UnwoundRespectsOrder(a: SegState, b: SegState, log: seq<Undo>)
    requires SameUpToOrder(a, b)
    ensures SameUpToOrder(Unwound(a, log), Unwound(b, log))
    decreases |log|
  {
    if log != [] {
      ApplyUndoRespectsOrder(a, b, log[|log| - 1]);
      UnwoundRespectsOrder(ApplyUndo(a, log[|log| - 1]), ApplyUndo(b, log[|log| - 1]), log[..|log| - 1]);
    }
  }

  lemma UniqueUpToOrder<E>(k: ElementKind<E>, a: seq<E>, b: seq<E>)
    requires UniqueUuids(k, a) && multiset(a) == multiset(b)
    ensures UniqueUuids(k, b) && Objs(k, a) == Objs(k, b)
    ensures forall x :: x in a <==> x in b
  {
    assert forall x :: x in a <==> x in multiset(b);
    forall z ensures multiset(b)[z] <= 1 { NoDupCount(a, z); }
    CountNoDup(b);
  }

  /** The invariant does not depend on the order of the lists. */
  lemma ValidUpToOrder(seg: NetSegment, a: SegState, b: SegState)
    requires ValidSegState(seg, a) && SameUpToOrder(a, b)
    ensures ValidSegState(seg, b)
  {
    UniqueUpToOrder(Vias, a.vias, b.vias);
    UniqueUpToOrder(Points, a.points, b.points);
    UniqueUpToOrder(Lines, a.lines, b.lines);
  }

  /** Taking one listed element off the board and out of its list keeps the
      invariant, and its compensating action restores the state up to order. */
  lemma RemoveLineStep(seg: NetSegment, s: SegState, l: NetLine, log: seq<Undo>)
    requires ValidSegState(seg, s) && s.added && l in s.lines
    ensures var t := s.(lines := RemoveOne(s.lines, l), onBoard := s.onBoard - {l});
      ValidSegState(seg, t) && SameUpToOrder(Unwound(t, log + [RestoreLine(l)]), Unwound(s, log))
  {
    var t := s.(lines := RemoveOne(s.lines, l), onBoard := s.onBoard - {l});
    LineObjs(l, s.vias, s.points, s.lines);
    KindsInjective(s.vias, s.points, s.lines);
    RemoveOneKeeps(Lines, seg, s.lines, l);
    assert ValidSegState(seg, t);
    RemoveOneMultiset(s.lines, l);
    assert SameUpToOrder(ApplyUndo(t, RestoreLine(l)), s);
    UnwoundRespectsOrder(ApplyUndo(t, RestoreLine(l)), s, log);
    UnwoundLast(t, log, RestoreLine(l));
  }

  lemma RemovePointStep(seg: NetSegment, s: SegState, p: NetPoint, log: seq<Undo>)
    requires ValidSegState(seg, s) && s.added && p in s.points
    ensures var t := s.(points := RemoveOne(s.points, p), onBoard := s.onBoard - {p});
      ValidSegState(seg, t) && SameUpToOrder(Unwound(t, log + [RestorePoint(p)]), Unwound(s, log))
  {
    var t := s.(points := RemoveOne(s.points, p), onBoard := s.onBoard - {p});
    PointObjs(p, s.vias, s.points, s.lines);
    KindsInjective(s.vias, s.points, s.lines);
    RemoveOneKeeps(Points, seg, s.points, p);
    assert ValidSegState(seg, t);
    RemoveOneMultiset(s.points, p);
    assert SameUpToOrder(ApplyUndo(t, RestorePoint(p)), s);
    UnwoundRespectsOrder(ApplyUndo(t, RestorePoint(p)), s, log);
    UnwoundLast(t, log, RestorePoint(p));
  }

  lemma RemoveViaStep(seg: NetSegment, s: SegState, v: Via, log: seq<Undo>)
    requires ValidSegState(seg, s) && s.added && v in s.vias
    ensures var t := s.(vias := RemoveOne(s.vias, v), onBoard := s.onBoard - {v});
      ValidSegState(seg, t) && SameUpToOrder(Unwound(t, log + [RestoreVia(v)]), Unwound(s, log))
  {
    var t := s.(vias := RemoveOne(s.vias, v), onBoard := s.onBoard - {v});
    ViaObjs(v, s.vias, s.points, s.lines);
    KindsInjective(s.vias, s.points, s.lines);
    RemoveOneKeeps(Vias, seg, s.vias, v);
    assert ValidSegState(seg, t);
    RemoveOneMultiset(s.vias, v);
    assert SameUpToOrder(ApplyUndo(t, RestoreVia(v)), s);
    UnwoundRespectsOrder(ApplyUndo(t, RestoreVia(v)), s, log);
    UnwoundLast(t, log, RestoreVia(v));
  }

  /** Putting one new element on the board and at the end of its list keeps the
      invariant, and its compensating action undoes it exactly. */
  lemma AddLineStep(seg: NetSegment, s: SegState, l: NetLine, log: seq<Undo>)
    requires ValidSegState(seg, s) && s.added
    requires l !in s.lines && l.Segment() == seg && forall x :: x in s.lines ==> x.uuid != l.uuid
    ensures var t := s.(lines := s.lines + [l], onBoard := s.onBoard + {l});
      ValidSegState(seg, t) && Unwound(t, log + [DropLine(l)]) == Unwound(s, log)
  {
    var t := s.(lines := s.lines + [l], onBoard := s.onBoard + {l});
    LineObjs(l, s.vias, s.points, s.lines);
    assert Lines.segmentOf(l) == seg;
    assert forall x :: x in s.lines ==> Lines.uuidOf(x) != Lines.uuidOf(l);
    AppendOneKeeps(Lines, seg, s.lines, l);
    assert ValidSegState(seg, t);
    RemoveOneAppended(s.lines, l);
    assert ApplyUndo(t, DropLine(l)) == s;
    UnwoundLast(t, log, DropLine(l));
  }

  lemma AddPointStep(seg: NetSegment, s: SegState, p: NetPoint, log: seq<Undo>)
    requires ValidSegState(seg, s) && s.added
    requires p !in s.points && p.segment == seg && forall x :: x in s.points ==> x.uuid != p.uuid
    ensures var t := s.(points := s.points + [p], onBoard := s.onBoard + {p});
      ValidSegState(seg, t) && Unwound(t, log + [DropPoint(p)]) == Unwound(s, log)
  {
    var t := s.(points := s.points + [p], onBoard := s.onBoard + {p});
    PointObjs(p, s.vias, s.points, s.lines);
    assert Points.segmentOf(p) == seg;
    assert forall x :: x in s.points ==> Points.uuidOf(x) != Points.uuidOf(p);
    AppendOneKeeps(Points, seg, s.points, p);
    assert ValidSegState(seg, t);
    RemoveOneAppended(s.points, p);
    assert ApplyUndo(t, DropPoint(p)) == s;
    UnwoundLast(t, log, DropPoint(p));
  }

  lemma AddViaStep(seg: NetSegment, s: SegState, v: Via, log: seq<Undo>)
    requires ValidSegState(seg, s) && s.added
    requires v !in s.vias && v.segment == seg && forall x :: x in s.vias ==> x.uuid != v.uuid
    ensures var t := s.(vias := s.vias + [v], onBoard := s.onBoard + {v});
      ValidSegState(seg, t) && Unwound(t, log + [DropVia(v)]) == Unwound(s, log)
  {
    var t := s.(vias := s.vias + [v], onBoard := s.onBoard + {v});
    ViaObjs(v, s.vias, s.points, s.lines);
    assert Vias.segmentOf(v) == seg;
    assert forall x :: x in s.vias ==> Vias.uuidOf(x) != Vias.uuidOf(v);
    AppendOneKeeps(Vias, seg, s.vias, v);
    assert ValidSegState(seg, t);
    RemoveOneAppended(s.vias, v);
    assert ApplyUndo(t, DropVia(v)) == s;
    UnwoundLast(t, log, DropVia(v));
  }

  lemma DistinctUuidsUnique<E>(k: ElementKind<E>, list: seq<E>)
    requires DistinctUuids(k.uuidOf, list)
    ensures UniqueUuids(k, list)
  {
    DistinctUuidsNoDup(k.uuidOf, list);
  }

  /** addElements as a function of the state: the state after it and its outcome. */
  ghost function AddElementsStep(seg: NetSegment, s: SegState, vs: seq<Via>, ps: seq<NetPoint>, ls: seq<NetLine>, failing: set<object>): (res: (Outcome, SegState))
    ensures res.0.Failed? ==> res.1 == s
    ensures !s.added ==> res.0 == Failed(LogicError)
  {
    if !s.added then (Failed(LogicError), s)
    else match AddScan(Vias, seg, failing, s.vias, vs)
      case Err(e) => (Failed(e), s)
      case Ok(vias) => match AddScan(Points, seg, failing, s.points, ps)
        case Err(e) => (Failed(e), s)
        case Ok(points) => match AddScan(Lines, seg, failing, s.lines, ls)
          case Err(e) => (Failed(e), s)
          case Ok(lines) =>
            var t := SegState(true, vias, points, lines, s.onBoard + Objs(Vias, vs) + Objs(Points, ps) + Objs(Lines, ls));
            if CountCheck(SegGraph(t)) then (Done, t) else (Failed(LogicError), s)
  }

  /** removeElements as a function of the state. Lines go first, then netpoints,
      then vias. On failure the operation leaves the lists equal only up to
      order, so the state given here for a failure is the state before. */
  ghost function RemoveElementsStep(s: SegState, vs: seq<Via>, ps: seq<NetPoint>, ls: seq<NetLine>, failing: set<object>): (res: (Outcome, SegState))
    ensures res.0.Failed? ==> res.1 == s
    ensures !s.added ==> res.0 == Failed(LogicError)
  {
    if !s.added then (Failed(LogicError), s)
    else match RemoveScan(Lines, failing, s.lines, ls)
      case Err(e) => (Failed(e), s)
      case Ok(lines) => match RemoveScan(Points, failing, s.points, ps)
        case Err(e) => (Failed(e), s)
        case Ok(points) => match RemoveScan(Vias, failing, s.vias, vs)
          case Err(e) => (Failed(e), s)
          case Ok(vias) =>
            var t := SegState(true, vias, points, lines, s.onBoard - Objs(Lines, ls) - Objs(Points, ps) - Objs(Vias, vs));
            if CountCheck(SegGraph(t)) then (Done, t) else (Failed(LogicError), s)
  }

  /** An accepted add batch keeps a list's invariant and puts exactly the
      batch's elements among its objects. */
  lemma AddScanKeeps<E>(k: ElementKind<E>, seg: NetSegment, failing: set<object>, list: seq<E>, batch: seq<E>)
    requires AddScan(k, seg, failing, list, batch).Ok?
    requires UniqueUuids(k, list) && OwnedBy(k, list, seg)
    ensures var r := AddScan(k, seg, failing, list, batch).value;
      UniqueUuids(k, r) && OwnedBy(k, r, seg) && Objs(k, r) == Objs(k, list) + Objs(k, batch)
  {
    AddScanOk(k, seg, failing, list, batch);
    ObjsConcat(k, list, batch);
  }

  /** Distinct elements are distinct objects. */
  ghost predicate InjectiveOn<E>(k: ElementKind<E>, list: seq<E>) {
    forall x, y :: x in list && y in list && k.asObject(x) == k.asObject(y) ==> x == y
  }

  lemma KindsInjective(vs: seq<Via>, ps: seq<NetPoint>, ls: seq<NetLine>)
    ensures InjectiveOn(Vias, vs) && InjectiveOn(Points, ps) && InjectiveOn(Lines, ls)
  {
  }

  /** An accepted remove batch keeps a list's invariant and takes exactly the
      batch's elements out of its objects. */
  lemma RemoveScanKeeps<E>(k: ElementKind<E>, seg: NetSegment, failing: set<object>, list: seq<E>, batch: seq<E>)
    requires RemoveScan(k, failing, list, batch).Ok?
    requires UniqueUuids(k, list) && OwnedBy(k, list, seg) && InjectiveOn(k, list)
    ensures var r := RemoveScan(k, failing, list, batch).value;
      UniqueUuids(k, r) && OwnedBy(k, r, seg) && Objs(k, r) == Objs(k, list) - Objs(k, batch)
      && forall e :: e in batch ==> e in list
  {
    var r := RemoveScan(k, failing, list, batch).value;
    RemoveScanOk(k, failing, list, batch);
    RemoveScanNoDup(k, failing, list, batch);
    forall e | e in batch ensures e in list { assert e in multiset(batch); }
    forall x | x in r ensures x in list && x !in batch {
      assert x in multiset(r);
      assert multiset(list)[x] > multiset(batch)[x];
      assert multiset(list)[x] <= 1 by { NoDupCount(list, x); }
    }
  }

  /** Taking one listed element out keeps the list's invariant and removes just
      its object. */
  lemma RemoveOneKeeps<E>(k: ElementKind<E>, seg: NetSegment, list: seq<E>, e: E)
    requires e in list && UniqueUuids(k, list) && OwnedBy(k, list, seg) && InjectiveOn(k, list)
    ensures UniqueUuids(k, RemoveOne(list, e)) && OwnedBy(k, RemoveOne(list, e), seg)
    ensures Objs(k, RemoveOne(list, e)) == Objs(k, list) - {k.asObject(e)}
  {
    assert [e][1..] == [];
    assert RemoveScan(k, {}, list, [e]) == RemoveScan(k, {}, RemoveOne(list, e), []);
    RemoveScanKeeps(k, seg, {}, list, [e]);
    assert Objs(k, [e]) == {k.asObject(e)};
  }

  /** Appending one new element owned by the segment, with a UUID no listed element
      has, keeps the list's invariant and adds just its object. */
  lemma AppendOneKeeps<E>(k: ElementKind<E>, seg: NetSegment, list: seq<E>, e: E)
    requires UniqueUuids(k, list) && OwnedBy(k, list, seg)
    requires e !in list && k.segmentOf(e) == seg && forall x :: x in list ==> k.uuidOf(x) != k.uuidOf(e)
    ensures UniqueUuids(k, list + [e]) && OwnedBy(k, list + [e], seg)
    ensures Objs(k, list + [e]) == Objs(k, list) + {k.asObject(e)}
  {
    assert [e][1..] == [];
    assert AddScan(k, seg, {}, list, [e]) == AddScan(k, seg, {}, list + [e], []);
    AddScanKeeps(k, seg, {}, list, [e]);
    assert Objs(k, [e]) == {k.asObject(e)};
  }

  /** A successful addElements found the segment on the board and accepted each batch. */
  lemma AddElementsAccepted(seg: NetSegment, s: SegState, vs: seq<Via>, ps: seq<NetPoint>, ls: seq<NetLine>, failing: set<object>)
    requires AddElementsStep(seg, s, vs, ps, ls, failing).0 == Done
    ensures s.added && AddScan(Vias, seg, failing, s.vias, vs).Ok?
    ensures AddScan(Points, seg, failing, s.points, ps).Ok? && AddScan(Lines, seg, failing, s.lines, ls).Ok?
  {
  }

  /** A successful addElements accepted all three batches. */
  lemma AddElementsScans(seg: NetSegment, s: SegState, vs: seq<Via>, ps: seq<NetPoint>, ls: seq<NetLine>, failing: set<object>)
    requires AddElementsStep(seg, s, vs, ps, ls, failing).0 == Done
    ensures s.added
    ensures AddScan(Vias, seg, failing, s.vias, vs).Ok? && AddScan(Points, seg, failing, s.points, ps).Ok?
    ensures AddScan(Lines, seg, failing, s.lines, ls).Ok?
    ensures AddElementsStep(seg, s, vs, ps, ls, failing).1 ==
      SegState(true, AddScan(Vias, seg, failing, s.vias, vs).value, AddScan(Points, seg, failing, s.points, ps).value,
               AddScan(Lines, seg, failing, s.lines, ls).value,
               s.onBoard + Objs(Vias, vs) + Objs(Points, ps) + Objs(Lines, ls))
  {
  }

  /** addElements: on success each list is extended by exactly its batch, every
      element is on the board, the segment passes the cohesion check and the
      invariant still holds. */
  lemma AddElementsSpec(seg: NetSegment, s: SegState, vs: seq<Via>, ps: seq<NetPoint>, ls: seq<NetLine>, failing: set<object>)
    requires ValidSegState(seg, s)
    requires AddElementsStep(seg, s, vs, ps, ls, failing).0 == Done
    ensures var t := AddElementsStep(seg, s, vs, ps, ls, failing).1;
      t.vias == s.vias + vs && t.points == s.points + ps && t.lines == s.lines + ls
      && t.added && t.onBoard == Elements(t) && CountCheck(SegGraph(t)) && ValidSegState(seg, t)
  {
    AddElementsScans(seg, s, vs, ps, ls, failing);
    AddScanOk(Vias, seg, failing, s.vias, vs);
    AddScanOk(Points, seg, failing, s.points, ps);
    AddScanOk(Lines, seg, failing, s.lines, ls);
    AddScanKeeps(Vias, seg, failing, s.vias, vs);
    AddScanKeeps(Points, seg, failing, s.points, ps);
    AddScanKeeps(Lines, seg, failing, s.lines, ls);
  }

  /** addElements refuses a via already listed or owned by another segment, and
      one whose UUID a listed via already has; likewise netpoints and netlines. */
  lemma AddElementsRejectsVias(seg: NetSegment, s: SegState, vs: seq<Via>, ps: seq<NetPoint>, ls: seq<NetLine>, failing: set<object>)
    requires AddElementsStep(seg, s, vs, ps, ls, failing).0 == Done
    ensures forall v :: v in vs ==> v !in s.vias && v.segment == seg && forall x :: x in s.vias ==> x.uuid != v.uuid
  {
    AddElementsAccepted(seg, s, vs, ps, ls, failing);
    AddScanOk(Vias, seg, failing, s.vias, vs);
    forall v | v in vs ensures v !in s.vias && v.segment == seg && forall x :: x in s.vias ==> x.uuid != v.uuid {
      assert Vias.segmentOf(v) == v.segment;
      forall x | x in s.vias ensures x.uuid != v.uuid {
        assert Vias.uuidOf(x) == x.uuid && Vias.uuidOf(v) == v.uuid;
      }
    }
  }

  lemma AddElementsRejectsPoints(seg: NetSegment, s: SegState, vs: seq<Via>, ps: seq<NetPoint>, ls: seq<NetLine>, failing: set<object>)
    requires AddElementsStep(seg, s, vs, ps, ls, failing).0 == Done
    ensures forall p :: p in ps ==> p !in s.points && p.segment == seg && forall x :: x in s.points ==> x.uuid != p.uuid
  {
    AddElementsAccepted(seg, s, vs, ps, ls, failing);
    AddScanOk(Points, seg, failing, s.points, ps);
    forall p | p in ps ensures p !in s.points && p.segment == seg && forall x :: x in s.points ==> x.uuid != p.uuid {
      assert Points.segmentOf(p) == p.segment;
      forall x | x in s.points ensures x.uuid != p.uuid {
        assert Points.uuidOf(x) == x.uuid && Points.uuidOf(p) == p.uuid;
      }
    }
  }

  lemma AddElementsRejectsLines(seg: NetSegment, s: SegState, vs: seq<Via>, ps: seq<NetPoint>, ls: seq<NetLine>, failing: set<object>)
    requires AddElementsStep(seg, s, vs, ps, ls, failing).0 == Done
    ensures forall l :: l in ls ==> l !in s.lines && l.Segment() == seg && forall x :: x in s.lines ==> x.uuid != l.uuid
  {
    AddElementsAccepted(seg, s, vs, ps, ls, failing);
    AddScanOk(Lines, seg, failing, s.lines, ls);
    forall l | l in ls ensures l !in s.lines && l.Segment() == seg && forall x :: x in s.lines ==> x.uuid != l.uuid {
      assert Lines.segmentOf(l) == l.Segment();
      forall x | x in s.lines ensures x.uuid != l.uuid {
        assert Lines.uuidOf(x) == x.uuid && Lines.uuidOf(l) == l.uuid;
      }
    }
  }

  /** A successful removeElements accepted all three batches. */
  lemma RemoveElementsScans(s: SegState, vs: seq<Via>, ps: seq<NetPoint>, ls: seq<NetLine>, failing: set<object>)
    requires RemoveElementsStep(s, vs, ps, ls, failing).0 == Done
    ensures s.added
    ensures RemoveScan(Vias, failing, s.vias, vs).Ok? && RemoveScan(Points, failing, s.points, ps).Ok?
    ensures RemoveScan(Lines, failing, s.lines, ls).Ok?
    ensures RemoveElementsStep(s, vs, ps, ls, failing).1 ==
      SegState(true, RemoveScan(Vias, failing, s.vias, vs).value, RemoveScan(Points, failing, s.points, ps).value,
               RemoveScan(Lines, failing, s.lines, ls).value,
               s.onBoard - Objs(Lines, ls) - Objs(Points, ps) - Objs(Vias, vs))
  {
  }

  /** Objects of different kinds are different objects. */
  lemma KindsDisjoint(vs: seq<Via>, ps: seq<NetPoint>, ls: seq<NetLine>)
    ensures Objs(Vias, vs) !! Objs(Points, ps) && Objs(Vias, vs) !! Objs(Lines, ls) && Objs(Points, ps) !! Objs(Lines, ls)
  {
  }

  /** removeElements: on success each batch was listed and each list lost exactly its batch. */
  lemma RemoveElementsSpec(seg: NetSegment, s: SegState, vs: seq<Via>, ps: seq<NetPoint>, ls: seq<NetLine>, failing: set<object>)
    requires RemoveElementsStep(s, vs, ps, ls, failing).0 == Done
    ensures var t := RemoveElementsStep(s, vs, ps, ls, failing).1;
      multiset(t.vias) == multiset(s.vias) - multiset(vs)
      && multiset(t.points) == multiset(s.points) - multiset(ps)
      && multiset(t.lines) == multiset(s.lines) - multiset(ls)
      && (forall v :: v in vs ==> v in s.vias) && (forall p :: p in ps ==> p in s.points)
      && (forall l :: l in ls ==> l in s.lines)
  {
    RemoveElementsScans(s, vs, ps, ls, failing);
    RemoveScanOk(Vias, failing, s.vias, vs);
    RemoveScanOk(Points, failing, s.points, ps);
    RemoveScanOk(Lines, failing, s.lines, ls);
    forall v | v in vs ensures v in s.vias { assert v in multiset(vs); }
    forall p | p in ps ensures p in s.points { assert p in multiset(ps); }
    forall l | l in ls ensures l in s.lines { assert l in multiset(ls); }
  }

  /** After a successful removeElements the removed elements are off the board,
      the segment passes the cohesion check and the invariant still holds. */
  lemma RemoveElementsKeepsValid(seg: NetSegment, s: SegState, vs: seq<Via>, ps: seq<NetPoint>, ls: seq<NetLine>, failing: set<object>)
    requires ValidSegState(seg, s)
    requires RemoveElementsStep(s, vs, ps, ls, failing).0 == Done
    ensures var t := RemoveElementsStep(s, vs, ps, ls, failing).1;
      t.added && t.onBoard == Elements(t) && CountCheck(SegGraph(t)) && ValidSegState(seg, t)
  {
    var t := RemoveElementsStep(s, vs, ps, ls, failing).1;
    RemoveElementsScans(s, vs, ps, ls, failing);
    KindsInjective(s.vias, s.points, s.lines);
    RemoveScanKeeps(Vias, seg, failing, s.vias, vs);
    RemoveScanKeeps(Points, seg, failing, s.points, ps);
    RemoveScanKeeps(Lines, seg, failing, s.lines, ls);
    KindsDisjoint(s.vias, ps, ls);
    KindsDisjoint(vs, s.points, ls);
    KindsDisjoint(vs, ps, s.lines);
    assert t.onBoard == (Objs(Vias, s.vias) - Objs(Vias, vs)) + (Objs(Points, s.points) - Objs(Points, ps))
                        + (Objs(Lines, s.lines) - Objs(Lines, ls));
  }

  /** After a successful addElements or removeElements, a segment whose netline
      endpoints are all listed is cohesive: every netpoint is reachable from the first. */
  lemma BatchLeavesCohesive(seg: NetSegment, s: SegState, vs: seq<Via>, ps: seq<NetPoint>, ls: seq<NetLine>, failing: set<object>)
    requires ValidSegState(seg, s)
    ensures var t := AddElementsStep(seg, s, vs, ps, ls, failing);
      t.0 == Done && WellFormed(SegGraph(t.1)) ==> AllReachable(SegGraph(t.1))
    ensures var t := RemoveElementsStep(s, vs, ps, ls, failing);
      t.0 == Done && WellFormed(SegGraph(t.1)) ==> AllReachable(SegGraph(t.1))
  {
    var a := AddElementsStep(seg, s, vs, ps, ls, failing);
    if a.0 == Done && WellFormed(SegGraph(a.1)) {
      AddElementsSpec(seg, s, vs, ps, ls, failing);
      CountCheckIsCohesion(SegGraph(a.1));
    }
    var r := RemoveElementsStep(s, vs, ps, ls, failing);
    if r.0 == Done && WellFormed(SegGraph(r.1)) {
      RemoveElementsKeepsValid(seg, s, vs, ps, ls, failing);
      CountCheckIsCohesion(SegGraph(r.1));
    }
  }

  /** addToBoard: refused when already on the board; registers with the net signal
      first (its refusal is the outcome), then puts every element on the board;
      an element that fails undoes everything. */
  ghost function AddToBoardStep(s: SegState, sig: SignalState, sigCircuit: nat, handle: nat, circuit: nat, failing: set<object>): (res: (Outcome, SegState, SignalState))
    ensures res.0.Failed? ==> res.1 == s && res.2 == sig
  {
    if s.added then (Failed(LogicError), s, sig)
    else
      var reg := RegisterStep(sig, sigCircuit, BoardNetSegment, handle, circuit);
      if reg.0.Failed? then (reg.0, s, sig)
      else if Elements(s) * failing != {} then (Failed(CollaboratorError), s, sig)
      else (Done, s.(added := true, onBoard := Elements(s)), reg.1)
  }

  /** removeFromBoard: refused when not on the board; takes every element off the
      board and unregisters from the net signal last; any failure undoes everything. */
  ghost function RemoveFromBoardStep(s: SegState, sig: SignalState, handle: nat, failing: set<object>): (res: (Outcome, SegState, SignalState))
    ensures res.0.Failed? ==> res.1 == s && res.2 == sig
  {
    if !s.added then (Failed(LogicError), s, sig)
    else if Elements(s) * failing != {} then (Failed(CollaboratorError), s, sig)
    else
      var unreg := UnregisterStep(sig, BoardNetSegment, handle);
      if unreg.0.Failed? then (unreg.0, s, sig)
      else (Done, s.(added := false, onBoard := {}), unreg.1)
  }

  /** Adding a segment to the board and removing it again restores both the
      segment and its net signal; each step keeps both invariants. */
  lemma AddToBoardThenRemove(seg: NetSegment, s: SegState, sig: SignalState, sigCircuit: nat, handle: nat, circuit: nat, failing: set<object>)
    requires ValidSegState(seg, s) && ValidState(sig)
    requires AddToBoardStep(s, sig, sigCircuit, handle, circuit, failing).0 == Done
    ensures var a := AddToBoardStep(s, sig, sigCircuit, handle, circuit, failing);
      ValidSegState(seg, a.1) && ValidState(a.2) && a.1.added
      && RemoveFromBoardStep(a.1, a.2, handle, {}) == (Done, s, sig)
  {
    RegisterThenUnregister(sig, sigCircuit, BoardNetSegment, handle, circuit);
    RegisterKeepsValid(sig, sigCircuit, BoardNetSegment, handle, circuit);
  }

  lemma RemoveFromBoardKeepsValid(seg: NetSegment, s: SegState, sig: SignalState, handle: nat, failing: set<object>)
    requires ValidSegState(seg, s) && ValidState(sig)
    ensures var r := RemoveFromBoardStep(s, sig, handle, failing);
      ValidSegState(seg, r.1) && ValidState(r.2) && (r.0 == Done ==> !r.1.added && r.1.onBoard == {})
  {
    UnregisterKeepsValid(sig, BoardNetSegment, handle);
  }

  /** setNetSignal for a signal other than the current one, as a function of the
      segment state and both signals: the outcome, the current signal's state and
      the new signal's state afterwards. */
  ghost function SetNetSignalStep(s: SegState, handle: nat, circuit: nat, current: SignalState, currentCircuit: nat,
                                  next: SignalState, nextCircuit: nat): (res: (Outcome, SignalState, SignalState))
    ensures (IsUsedState(s) && s.added) || nextCircuit != circuit ==> res == (Failed(LogicError), current, next)
    ensures !s.added && nextCircuit == circuit ==> res == (Done, current, next)
  {
    if (IsUsedState(s) && s.added) || nextCircuit != circuit then (Failed(LogicError), current, next)
    else if !s.added then (Done, current, next)
    else
      var unreg := UnregisterStep(current, BoardNetSegment, handle);
      if unreg.0.Failed? then (unreg.0, current, next)
      else
        var reg := RegisterStep(next, nextCircuit, BoardNetSegment, handle, circuit);
        if reg.0.Failed? then (reg.0, RegisterStep(unreg.1, currentCircuit, BoardNetSegment, handle, circuit).1, next)
        else (Done, unreg.1, reg.1)
  }

  /** On the board, a failed setNetSignal leaves the new signal as it was and the
      current one with the same registrations as before (the segment back at
      the end of its list). */
  lemma SetNetSignalFailureRestores(s: SegState, handle: nat, circuit: nat, current: SignalState, next: SignalState, nextCircuit: nat)
    requires ValidState(current)
    requires s.added ==> handle in Registrants(current, BoardNetSegment)
    requires SetNetSignalStep(s, handle, circuit, current, circuit, next, nextCircuit).0.Failed?
    ensures var res := SetNetSignalStep(s, handle, circuit, current, circuit, next, nextCircuit);
      res.2 == next && SameRegistrations(res.1, current)
  {
    if !((IsUsedState(s) && s.added) || nextCircuit != circuit) && s.added {
      UnregisterThenRegister(current, circuit, BoardNetSegment, handle);
    }
  }

  /** On the board, a successful setNetSignal moves the segment's registration
      from the current signal to the new one; both signals stay valid. */
  lemma SetNetSignalMoves(s: SegState, handle: nat, circuit: nat, current: SignalState, next: SignalState, nextCircuit: nat)
    requires ValidState(current) && ValidState(next)
    requires SetNetSignalStep(s, handle, circuit, current, circuit, next, nextCircuit).0 == Done
    ensures var res := SetNetSignalStep(s, handle, circuit, current, circuit, next, nextCircuit);
      ValidState(res.1) && ValidState(res.2)
      && (s.added ==> handle !in Registrants(res.1, BoardNetSegment) && handle in Registrants(res.2, BoardNetSegment))
  {
    if s.added {
      var list := Registrants(current, BoardNetSegment);
      var removed := WithRegistrants(current, BoardNetSegment, RemoveOne(list, handle));
      UnregisterKeepsValid(current, BoardNetSegment, handle);
      RegisterKeepsValid(next, nextCircuit, BoardNetSegment, handle, circuit);
      RemoveOneElements(list, handle);
      RegistrantsUnchangedByErc(removed, BoardNetSegment);
      var added := WithRegistrants(next, BoardNetSegment, Registrants(next, BoardNetSegment) + [handle]);
      RegistrantsUnchangedByErc(added, BoardNetSegment);
    }
  }

  /** BI_NetSegment. `handle` stands for the segment's address when it registers
      with its net signal; `circuit` is the circuit of the board's project. */
  class NetSegment {
    const uuid: Uuid
    const handle: nat
    const circuit: nat
    /** The board the segment belongs to. */
    const board: nat
    var netSignal: NetSignal
    var addedToBoard: bool
    var vias: seq<Via>
    var netPoints: seq<NetPoint>
    var netLines: seq<NetLine>
    /** The elements currently added to the board. */
    var onBoard: set<object>

    function State(): SegState
      reads this
    {
      SegState(addedToBoard, vias, netPoints, netLines, onBoard)
    }

    ghost predicate Valid()
      reads this
    {
      ValidSegState(this, State())
    }

    /** The constructor for a new, empty segment of a net signal. */
    constructor (uuid: Uuid, handle: nat, circuit: nat, board: nat, signal: NetSignal)
      ensures Valid() && !addedToBoard && netSignal == signal
      ensures this.uuid == uuid && this.handle == handle && this.circuit == circuit && this.board == board
      ensures vias == [] && netPoints == [] && netLines == [] && onBoard == {}
    {
      this.uuid := uuid;
      this.handle := handle;
      this.circuit := circuit;
      this.board := board;
      netSignal := signal;
      addedToBoard := false;
      vias, netPoints, netLines := [], [], [];
      onBoard := {};
    }

    /** isUsed: the segment has a via, a netpoint or a netline. */
    function IsUsed(): (b: bool)
      reads this
      ensures b <==> Elements(State()) != {}
    {
      if vias != [] then ViaObjs(vias[0], vias, netPoints, netLines); true
      else if netPoints != [] then PointObjs(netPoints[0], vias, netPoints, netLines); true
      else if netLines != [] then LineObjs(netLines[0], vias, netPoints, netLines); true
      else false
    }

    method GetViaByUuid(u: Uuid) returns (r: Option<Via>)
      ensures r.None? <==> forall x :: x in vias ==> x.uuid != u
      ensures r.Some? ==> exists i :: 0 <= i < |vias| && vias[i] == r.value && r.value.uuid == u
                                      && forall j :: 0 <= j < i ==> vias[j].uuid != u
    {
      r := FindByUuid(ViaUuid, vias, u);
    }

    method GetNetPointByUuid(u: Uuid) returns (r: Option<NetPoint>)
      ensures r.None? <==> forall x :: x in netPoints ==> x.uuid != u
      ensures r.Some? ==> exists i :: 0 <= i < |netPoints| && netPoints[i] == r.value && r.value.uuid == u
                                      && forall j :: 0 <= j < i ==> netPoints[j].uuid != u
    {
      r := FindByUuid(PointUuid, netPoints, u);
    }

    method GetNetLineByUuid(u: Uuid) returns (r: Option<NetLine>)
      ensures r.None? <==> forall x :: x in netLines ==> x.uuid != u
      ensures r.Some? ==> exists i :: 0 <= i < |netLines| && netLines[i] == r.value && r.value.uuid == u
                                      && forall j :: 0 <= j < i ==> netLines[j].uuid != u
    {
      r := FindByUuid(LineUuid, netLines, u);
    }

    /** areAllNetPointsConnectedTogether. */
    method AreAllNetPointsConnectedTogether() returns (b: bool)
      ensures b == CountCheck(SegGraph(State()))
    {
      b := AreAllConnected(Graph(netPoints, LineEnds(netLines), ViaOf));
    }

    /** isSelected: there is a netline and every netline is selected. */
    method IsSelected() returns (b: bool)
      ensures b <==> netLines != [] && forall l :: l in netLines ==> l.selected
    {
      if netLines == [] {
        return false;
      }
      for i := 0 to |netLines|
        invariant forall j :: 0 <= j < i ==> netLines[j].selected
      {
        if !netLines[i].selected {
          return false;
        }
      }
      return true;
    }

    /** Runs one compensating action. */
    method Compensate(u: Undo)
      modifies this
      ensures State() == ApplyUndo(old(State()), u) && netSignal == old(netSignal)
    {
      match u {
        case DropVia(v) => vias := RemoveOne(vias, v); onBoard := onBoard - {v};
        case DropPoint(p) => netPoints := RemoveOne(netPoints, p); onBoard := onBoard - {p};
        case DropLine(l) => netLines := RemoveOne(netLines, l); onBoard := onBoard - {l};
        case RestoreVia(v) => vias := vias + [v]; onBoard := onBoard + {v};
        case RestorePoint(p) => netPoints := netPoints + [p]; onBoard := onBoard + {p};
        case RestoreLine(l) => netLines := netLines + [l]; onBoard := onBoard + {l};
        case Detach(o) => onBoard := onBoard - {o};
        case Attach(o) => onBoard := onBoard + {o};
      }
    }

    /** Runs a log of compensating actions, the most recent first (the scope
        guard list going out of scope without being dismissed). */
    method Unwind(log: seq<Undo>)
      modifies this
      ensures State() == Unwound(old(State()), log) && netSignal == old(netSignal)
    {
      var i := |log|;
      assert log[..i] == log;
      while i > 0
        invariant 0 <= i <= |log|
        invariant Unwound(old(State()), log) == Unwound(State(), log[..i])
        invariant netSignal == old(netSignal)
      {
        assert log[..i][..i - 1] == log[..i - 1];
        Compensate(log[i - 1]);
        i := i - 1;
      }
    }

    /** The via loop of addElements. */
    method AddViaBatch(vs: seq<Via>, failing: set<object>, log0: seq<Undo>) returns (r: Outcome, log: seq<Undo>)
      requires addedToBoard && Valid()
      modifies this
      ensures Valid() && addedToBoard && netSignal == old(netSignal)
      ensures netPoints == old(netPoints) && netLines == old(netLines)
      ensures Unwound(State(), log) == Unwound(old(State()), log0)
      ensures var scan := AddScan(Vias, this, failing, old(vias), vs);
        (r.Done? <==> scan.Ok?) && (r.Failed? ==> r.error == scan.error) && (r.Done? ==> vias == scan.value)
    {
      log := log0;
      for i := 0 to |vs|
        invariant Valid() && addedToBoard && netSignal == old(netSignal)
        invariant netPoints == old(netPoints) && netLines == old(netLines)
        invariant Unwound(State(), log) == Unwound(old(State()), log0)
        invariant AddScan(Vias, this, failing, old(vias), vs) == AddScan(Vias, this, failing, vias, vs[i..])
      {
        var v := vs[i];
        var found := GetViaByUuid(v.uuid);
        AddScanAt(Vias, this, failing, vias, vs, i, v !in vias && v.segment == this, found.Some?);
        if v in vias || v.segment != this {
          return Failed(LogicError), log;
        }
        if found.Some? {
          return Failed(RuntimeError), log;
        }
        if v in failing {
          return Failed(CollaboratorError), log;
        }
        AddViaStep(this, State(), v, log);
        onBoard := onBoard + {v};
        vias := vias + [v];
        log := log + [DropVia(v)];
      }
      r := Done;
    }

    /** The netpoint loop of addElements. */
    method AddPointBatch(ps: seq<NetPoint>, failing: set<object>, log0: seq<Undo>) returns (r: Outcome, log: seq<Undo>)
      requires addedToBoard && Valid()
      modifies this
      ensures Valid() && addedToBoard && netSignal == old(netSignal)
      ensures vias == old(vias) && netLines == old(netLines)
      ensures Unwound(State(), log) == Unwound(old(State()), log0)
      ensures var scan := AddScan(Points, this, failing, old(netPoints), ps);
        (r.Done? <==> scan.Ok?) && (r.Failed? ==> r.error == scan.error) && (r.Done? ==> netPoints == scan.value)
    {
      log := log0;
      for i := 0 to |ps|
        invariant Valid() && addedToBoard && netSignal == old(netSignal)
        invariant vias == old(vias) && netLines == old(netLines)
        invariant Unwound(State(), log) == Unwound(old(State()), log0)
        invariant AddScan(Points, this, failing, old(netPoints), ps) == AddScan(Points, this, failing, netPoints, ps[i..])
      {
        var p := ps[i];
        var found := GetNetPointByUuid(p.uuid);
        AddScanAt(Points, this, failing, netPoints, ps, i, p !in netPoints && p.segment == this, found.Some?);
        if p in netPoints || p.segment != this {
          return Failed(LogicError), log;
        }
        if found.Some? {
          return Failed(RuntimeError), log;
        }
        if p in failing {
          return Failed(CollaboratorError), log;
        }
        AddPointStep(this, State(), p, log);
        onBoard := onBoard + {p};
        netPoints := netPoints + [p];
        log := log + [DropPoint(p)];
      }
      r := Done;
    }

    /** The netline loop of addElements. */
    method AddLineBatch(ls: seq<NetLine>, failing: set<object>, log0: seq<Undo>) returns (r: Outcome, log: seq<Undo>)
      requires addedToBoard && Valid()
      modifies this
      ensures Valid() && addedToBoard && netSignal == old(netSignal)
      ensures vias == old(vias) && netPoints == old(netPoints)
      ensures Unwound(State(), log) == Unwound(old(State()), log0)
      ensures var scan := AddScan(Lines, this, failing, old(netLines), ls);
        (r.Done? <==> scan.Ok?) && (r.Failed? ==> r.error == scan.error) && (r.Done? ==> netLines == scan.value)
    {
      log := log0;
      for i := 0 to |ls|
        invariant Valid() && addedToBoard && netSignal == old(netSignal)
        invariant vias == old(vias) && netPoints == old(netPoints)
        invariant Unwound(State(), log) == Unwound(old(State()), log0)
        invariant AddScan(Lines, this, failing, old(netLines), ls) == AddScan(Lines, this, failing, netLines, ls[i..])
      {
        var l := ls[i];
        var found := GetNetLineByUuid(l.uuid);
        AddScanAt(Lines, this, failing, netLines, ls, i, l !in netLines && l.Segment() == this, found.Some?);
        if l in netLines || l.Segment() != this {
          return Failed(LogicError), log;
        }
        if found.Some? {
          return Failed(RuntimeError), log;
        }
        if l in failing {
          return Failed(CollaboratorError), log;
        }
        AddLineStep(this, State(), l, log);
        onBoard := onBoard + {l};
        netLines := netLines + [l];
        log := log + [DropLine(l)];
      }
      r := Done;
    }

    /** addElements: `failing` holds the elements whose own addToBoard throws. */
    method AddElements(vs: seq<Via>, ps: seq<NetPoint>, ls: seq<NetLine>, failing: set<object>) returns (r: Outcome)
      requires Valid()
      modifies this
      ensures Valid() && netSignal == old(netSignal)
      ensures (r, State()) == AddElementsStep(this, old(State()), vs, ps, ls, failing)
    {
      if !addedToBoard {
        return Failed(LogicError);
      }
      var log: seq<Undo> := [];
      r, log := AddViaBatch(vs, failing, log);
      if r.Done? {
        r, log := AddPointBatch(ps, failing, log);
        if r.Done? {
          r, log := AddLineBatch(ls, failing, log);
          if r.Done? {
            var cohesive := AreAllNetPointsConnectedTogether();
            if cohesive {
              AddElementsSpec(this, old(State()), vs, ps, ls, failing);
              return Done;
            }
            r := Failed(LogicError);
          }
        }
      }
      Unwind(log);
    }

    /** The netline loop of removeElements. */
    method RemoveLineBatch(ls: seq<NetLine>, failing: set<object>, log0: seq<Undo>) returns (r: Outcome, log: seq<Undo>)
      requires addedToBoard && Valid()
      modifies this
      ensures Valid() && addedToBoard && netSignal == old(netSignal)
      ensures vias == old(vias) && netPoints == old(netPoints)
      ensures SameUpToOrder(Unwound(State(), log), Unwound(old(State()), log0))
      ensures var scan := RemoveScan(Lines, failing, old(netLines), ls);
        (r.Done? <==> scan.Ok?) && (r.Failed? ==> r.error == scan.error) && (r.Done? ==> netLines == scan.value)
    {
      log := log0;
      for i := 0 to |ls|
        invariant Valid() && addedToBoard && netSignal == old(netSignal)
        invariant vias == old(vias) && netPoints == old(netPoints)
        invariant SameUpToOrder(Unwound(State(), log), Unwound(old(State()), log0))
        invariant RemoveScan(Lines, failing, old(netLines), ls) == RemoveScan(Lines, failing, netLines, ls[i..])
      {
        var l := ls[i];
        assert ls[i..][0] == l && ls[i..][1..] == ls[i + 1..];
        if l !in netLines {
          return Failed(LogicError), log;
        }
        if l in failing {
          return Failed(CollaboratorError), log;
        }
        RemoveLineStep(this, State(), l, log);
        netLines := RemoveOne(netLines, l);
        onBoard := onBoard - {l};
        log := log + [RestoreLine(l)];
      }
      r := Done;
    }

    /** The netpoint loop of removeElements. */
    method RemovePointBatch(ps: seq<NetPoint>, failing: set<object>, log0: seq<Undo>) returns (r: Outcome, log: seq<Undo>)
      requires addedToBoard && Valid()
      modifies this
      ensures Valid() && addedToBoard && netSignal == old(netSignal)
      ensures vias == old(vias) && netLines == old(netLines)
      ensures SameUpToOrder(Unwound(State(), log), Unwound(old(State()), log0))
      ensures var scan := RemoveScan(Points, failing, old(netPoints), ps);
        (r.Done? <==> scan.Ok?) && (r.Failed? ==> r.error == scan.error) && (r.Done? ==> netPoints == scan.value)
    {
      log := log0;
      for i := 0 to |ps|
        invariant Valid() && addedToBoard && netSignal == old(netSignal)
        invariant vias == old(vias) && netLines == old(netLines)
        invariant SameUpToOrder(Unwound(State(), log), Unwound(old(State()), log0))
        invariant RemoveScan(Points, failing, old(netPoints), ps) == RemoveScan(Points, failing, netPoints, ps[i..])
      {
        var p := ps[i];
        assert ps[i..][0] == p && ps[i..][1..] == ps[i + 1..];
        if p !in netPoints {
          return Failed(LogicError), log;
        }
        if p in failing {
          return Failed(CollaboratorError), log;
        }
        RemovePointStep(this, State(), p, log);
        netPoints := RemoveOne(netPoints, p);
        onBoard := onBoard - {p};
        log := log + [RestorePoint(p)];
      }
      r := Done;
    }

    /** The via loop of removeElements. */
    method RemoveViaBatch(vs: seq<Via>, failing: set<object>, log0: seq<Undo>) returns (r: Outcome, log: seq<Undo>)
      requires addedToBoard && Valid()
      modifies this
      ensures Valid() && addedToBoard && netSignal == old(netSignal)
      ensures netPoints == old(netPoints) && netLines == old(netLines)
      ensures SameUpToOrder(Unwound(State(), log), Unwound(old(State()), log0))
      ensures var scan := RemoveScan(Vias, failing, old(vias), vs);
        (r.Done? <==> scan.Ok?) && (r.Failed? ==> r.error == scan.error) && (r.Done? ==> vias == scan.value)
    {
      log := log0;
      for i := 0 to |vs|
        invariant Valid() && addedToBoard && netSignal == old(netSignal)
        invariant netPoints == old(netPoints) && netLines == old(netLines)
        invariant SameUpToOrder(Unwound(State(), log), Unwound(old(State()), log0))
        invariant RemoveScan(Vias, failing, old(vias), vs) == RemoveScan(Vias, failing, vias, vs[i..])
      {
        var v := vs[i];
        assert vs[i..][0] == v && vs[i..][1..] == vs[i + 1..];
        if v !in vias {
          return Failed(LogicError), log;
        }
        if v in failing {
          return Failed(CollaboratorError), log;
        }
        RemoveViaStep(this, State(), v, log);
        vias := RemoveOne(vias, v);
        onBoard := onBoard - {v};
        log := log + [RestoreVia(v)];
      }
      r := Done;
    }

    /** removeElements: `failing` holds the elements whose own removeFromBoard
        throws. A failure puts every removed element back, at the end of its list. */
    method RemoveElements(vs: seq<Via>, ps: seq<NetPoint>, ls: seq<NetLine>, failing: set<object>) returns (r: Outcome)
      requires Valid()
      modifies this
      ensures Valid() && netSignal == old(netSignal)
      ensures r == RemoveElementsStep(old(State()), vs, ps, ls, failing).0
      ensures r.Done? ==> State() == RemoveElementsStep(old(State()), vs, ps, ls, failing).1
      ensures r.Failed? ==> SameUpToOrder(State(), old(State()))
    {
      if !addedToBoard {
        return Failed(LogicError);
      }
      var log: seq<Undo> := [];
      r, log := RemoveLineBatch(ls, failing, log);
      if r.Done? {
        r, log := RemovePointBatch(ps, failing, log);
        if r.Done? {
          r, log := RemoveViaBatch(vs, failing, log);
          if r.Done? {
            var cohesive := AreAllNetPointsConnectedTogether();
            if cohesive {
              RemoveElementsKeepsValid(this, old(State()), vs, ps, ls, failing);
              return Done;
            }
            r := Failed(LogicError);
          }
        }
      }
      Unwind(log);
      ValidUpToOrder(this, old(State()), State());
    }

    /** Puts the elements of one list on the board, one by one, recording how to
        take each off again; stops at the first element whose addToBoard throws. */
    method AttachAll<E>(k: ElementKind<E>, items: seq<E>, failing: set<object>, log0: seq<Undo>) returns (ok: bool, log: seq<Undo>)
      requires NoDup(items) && InjectiveOn(k, items) && Objs(k, items) !! onBoard
      modifies this`onBoard
      ensures ok <==> Objs(k, items) !! failing
      ensures ok ==> onBoard == old(onBoard) + Objs(k, items)
      ensures Unwound(State(), log) == Unwound(old(State()), log0)
    {
      log := log0;
      for i := 0 to |items|
        invariant onBoard == old(onBoard) + Objs(k, items[..i])
        invariant Objs(k, items[..i]) !! failing
        invariant Unwound(State(), log) == Unwound(old(State()), log0)
      {
        var o := k.asObject(items[i]);
        assert items[i] in items;
        if o in failing {
          return false, log;
        }
        assert o !in Objs(k, items[..i]);
        var before := State();
        onBoard := onBoard + {o};
        assert ApplyUndo(State(), Detach(o)) == before;
        UnwoundLast(State(), log, Detach(o));
        log := log + [Detach(o)];
        assert items[..i + 1] == items[..i] + [items[i]];
        ObjsConcat(k, items[..i], [items[i]]);
      }
      assert items[..|items|] == items;
      ok := true;
    }

    /** Takes the elements of one list off the board, one by one, recording how
        to put each back; stops at the first element whose removeFromBoard throws. */
    method DetachAll<E>(k: ElementKind<E>, items: seq<E>, failing: set<object>, log0: seq<Undo>) returns (ok: bool, log: seq<Undo>)
      requires NoDup(items) && InjectiveOn(k, items) && Objs(k, items) <= onBoard
      modifies this`onBoard
      ensures ok <==> Objs(k, items) !! failing
      ensures ok ==> onBoard == old(onBoard) - Objs(k, items)
      ensures Unwound(State(), log) == Unwound(old(State()), log0)
    {
      log := log0;
      for i := 0 to |items|
        invariant onBoard == old(onBoard) - Objs(k, items[..i])
        invariant Objs(k, items[..i]) !! failing
        invariant Unwound(State(), log) == Unwound(old(State()), log0)
      {
        var o := k.asObject(items[i]);
        assert items[i] in items;
        if o in failing {
          return false, log;
        }
        assert o !in Objs(k, items[..i]);
        var before := State();
        onBoard := onBoard - {o};
        assert ApplyUndo(State(), Attach(o)) == before;
        UnwoundLast(State(), log, Attach(o));
        log := log + [Attach(o)];
        assert items[..i + 1] == items[..i] + [items[i]];
        ObjsConcat(k, items[..i], [items[i]]);
      }
      assert items[..|items|] == items;
      ok := true;
    }

    /** The attaching part of addToBoard: the vias, then the netpoints, then the
        netlines; the log undoes whatever was attached. */
    method AttachEverything(failing: set<object>) returns (ok: bool, log: seq<Undo>)
      requires Valid() && !addedToBoard
      modifies this`onBoard
      ensures ok <==> Elements(old(State())) * failing == {}
      ensures ok ==> onBoard == Elements(old(State()))
      ensures Unwound(State(), log) == old(State())
    {
      KindsInjective(vias, netPoints, netLines);
      KindsDisjoint(vias, netPoints, netLines);
      ok, log := AttachAll(Vias, vias, failing, []);
      if ok {
        ok, log := AttachAll(Points, netPoints, failing, log);
        if ok {
          ok, log := AttachAll(Lines, netLines, failing, log);
        }
      }
    }

    /** addToBoard: registers with the net signal first, then puts the vias, the
        netpoints and the netlines on the board; any failure undoes everything. */
    method AddToBoard(failing: set<object>) returns (r: Outcome)
      requires Valid() && netSignal.Valid()
      modifies this, netSignal
      ensures Valid() && netSignal.Valid() && netSignal == old(netSignal)
      ensures (r, State(), netSignal.State())
        == AddToBoardStep(old(State()), old(netSignal.State()), netSignal.circuit, handle, circuit, failing)
    {
      if addedToBoard {
        return Failed(LogicError);
      }
      r := netSignal.Register(BoardNetSegment, handle, circuit);
      if r.Failed? {
        return;
      }
      var ok, log := AttachEverything(failing);
      if !ok {
        Unwind(log);
        RegisterThenUnregister(old(netSignal.State()), netSignal.circuit, BoardNetSegment, handle, circuit);
        r := netSignal.Unregister(BoardNetSegment, handle);
        return Failed(CollaboratorError);
      }
      addedToBoard := true;
    }

    /** removeFromBoard: takes the netlines, the netpoints and the vias off the
        board, then unregisters from the net signal; any failure undoes everything. */
    method RemoveFromBoard(failing: set<object>) returns (r: Outcome)
      requires Valid() && netSignal.Valid()
      modifies this, netSignal
      ensures Valid() && netSignal.Valid() && netSignal == old(netSignal)
      ensures (r, State(), netSignal.State()) == RemoveFromBoardStep(old(State()), old(netSignal.State()), handle, failing)
    {
      if !addedToBoard {
        return Failed(LogicError);
      }
      KindsInjective(vias, netPoints, netLines);
      KindsDisjoint(vias, netPoints, netLines);
      ghost var s0 := State();
      var ok, log := DetachAll(Lines, netLines, failing, []);
      ghost var linesOk, pointsOk := ok, true;
      if ok {
        ok, log := DetachAll(Points, netPoints, failing, log);
        pointsOk := ok;
        if ok {
          ok, log := DetachAll(Vias, vias, failing, log);
        }
      }
      if !ok {
        assert Elements(s0) * failing != {} by {
          var vs, ps, ls := Objs(Vias, vias), Objs(Points, netPoints), Objs(Lines, netLines);
          assert Elements(s0) == vs + ps + ls;
          var o: object;
          if !linesOk {
            o :| o in ls && o in failing;
          } else if !pointsOk {
            o :| o in ps && o in failing;
          } else {
            o :| o in vs && o in failing;
          }
          assert o in Elements(s0) * failing;
        }
        assert Unwound(State(), log) == s0;
        Unwind(log);
        return Failed(CollaboratorError);
      }
      r := netSignal.Unregister(BoardNetSegment, handle);
      if r.Failed? {
        Unwind(log);
        return;
      }
      addedToBoard := false;
    }

    /** setNetSignal: moving to another signal of the same circuit is refused while
        the segment is on the board and used; on the board the registration moves
        from the current signal to the new one, and back if that fails. */
    method SetNetSignal(signal: NetSignal) returns (r: Outcome)
      requires Valid() && netSignal.Valid() && signal.Valid()
      modifies this`netSignal, netSignal, signal
      ensures Valid() && State() == old(State())
      ensures old(netSignal).Valid() && signal.Valid()
      ensures netSignal == if r.Done? then signal else old(netSignal)
      ensures signal == old(netSignal) ==> r == Done && signal.State() == old(signal.State())
      ensures signal != old(netSignal) ==>
        (r, old(netSignal).State(), signal.State())
          == SetNetSignalStep(old(State()), handle, circuit, old(netSignal.State()), old(netSignal).circuit,
                              old(signal.State()), signal.circuit)
    {
      if signal == netSignal {
        return Done;
      }
      if (IsUsedState(State()) && addedToBoard) || signal.circuit != circuit {
        return Failed(LogicError);
      }
      if addedToBoard {
        r := netSignal.Unregister(BoardNetSegment, handle);
        if r.Failed? {
          return;
        }
        r := signal.Register(BoardNetSegment, handle, circuit);
        if r.Failed? {
          var _ := netSignal.Register(BoardNetSegment, handle, circuit);
          return;
        }
      }
      netSignal := signal;
      r := Done;
    }

    /** The via loop of the loading constructor: each via is appended unless a
        listed via already has its UUID, which leaves the list empty. */
    method LoadVias(vs: seq<Via>) returns (ok: bool)
      requires vias == []
      modifies this`vias
      ensures ok <==> DistinctUuids(ViaUuid, vs)
      ensures vias == if ok then vs else []
    {
      for i := 0 to |vs|
        invariant vias == vs[..i] && DistinctUuids(ViaUuid, vias)
      {
        var found := GetViaByUuid(vs[i].uuid);
        if found.Some? {
          DuplicateUuid(ViaUuid, vs, i, found.value);
          vias := [];
          return false;
        }
        DistinctUuidsSnoc(ViaUuid, vs, i);
        vias := vias + [vs[i]];
        assert vs[..i + 1] == vias;
      }
      assert vs[..|vs|] == vs;
      ok := true;
    }

    /** The netpoint loop of the loading constructor. */
    method LoadNetPoints(ps: seq<NetPoint>) returns (ok: bool)
      requires netPoints == []
      modifies this`netPoints
      ensures ok <==> DistinctUuids(PointUuid, ps)
      ensures netPoints == if ok then ps else []
    {
      for i := 0 to |ps|
        invariant netPoints == ps[..i] && DistinctUuids(PointUuid, netPoints)
      {
        var found := GetNetPointByUuid(ps[i].uuid);
        if found.Some? {
          DuplicateUuid(PointUuid, ps, i, found.value);
          netPoints := [];
          return false;
        }
        DistinctUuidsSnoc(PointUuid, ps, i);
        netPoints := netPoints + [ps[i]];
        assert ps[..i + 1] == netPoints;
      }
      assert ps[..|ps|] == ps;
      ok := true;
    }

    /** The netline loop of the loading constructor. */
    method LoadNetLines(ls: seq<NetLine>) returns (ok: bool)
      requires netLines == []
      modifies this`netLines
      ensures ok <==> DistinctUuids(LineUuid, ls)
      ensures netLines == if ok then ls else []
    {
      for i := 0 to |ls|
        invariant netLines == ls[..i] && DistinctUuids(LineUuid, netLines)
      {
        var found := GetNetLineByUuid(ls[i].uuid);
        if found.Some? {
          DuplicateUuid(LineUuid, ls, i, found.value);
          netLines := [];
          return false;
        }
        DistinctUuidsSnoc(LineUuid, ls, i);
        netLines := netLines + [ls[i]];
        assert ls[..i + 1] == netLines;
      }
      assert ls[..|ls|] == ls;
      ok := true;
    }

    /** The body of the loading constructor, run on a newly constructed empty
        segment with the elements built from the file: looks the net signal up in
        the circuit, appends the vias, netpoints and netlines with a duplicate-UUID
        check each, then checks cohesion. Every failure is a runtime error and
        leaves the segment empty. */
    method Load(signals: map<Uuid, NetSignal>, netUuid: Uuid, vs: seq<Via>, ps: seq<NetPoint>, ls: seq<NetLine>)
      returns (r: Outcome)
      requires Valid() && !addedToBoard && vias == [] && netPoints == [] && netLines == []
      requires OwnedBy(Vias, vs, this) && OwnedBy(Points, ps, this) && OwnedBy(Lines, ls, this)
      modifies this
      ensures Valid() && !addedToBoard
      ensures r.Done? <==> (netUuid in signals && DistinctUuids(ViaUuid, vs) && DistinctUuids(PointUuid, ps)
                            && DistinctUuids(LineUuid, ls) && CountCheck(Graph(ps, LineEnds(ls), ViaOf)))
      ensures r.Done? ==> netSignal == signals[netUuid] && vias == vs && netPoints == ps && netLines == ls
      ensures r.Failed? ==> r.error == RuntimeError && vias == [] && netPoints == [] && netLines == []
    {
      if netUuid !in signals {
        return Failed(RuntimeError);
      }
      var ok := LoadVias(vs);
      if !ok {
        DetachedSegValid(this, State());
        return Failed(RuntimeError);
      }
      ok := LoadNetPoints(ps);
      if !ok {
        vias := [];
        DetachedSegValid(this, State());
        return Failed(RuntimeError);
      }
      ok := LoadNetLines(ls);
      if !ok {
        vias, netPoints := [], [];
        DetachedSegValid(this, State());
        return Failed(RuntimeError);
      }
      var cohesive := AreAllNetPointsConnectedTogether();
      if !cohesive {
        vias, netPoints, netLines := [], [], [];
        DetachedSegValid(this, State());
        return Failed(RuntimeError);
      }
      DistinctUuidsUnique(Vias, vias);
      DistinctUuidsUnique(Points, netPoints);
      DistinctUuidsUnique(Lines, netLines);
      DetachedSegValid(this, State());
      netSignal := signals[netUuid];
      r := Done;
    }
  }
}
