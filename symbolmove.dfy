/** project::CmdSymbolInstanceMove: the undo command that moves and rotates a schematic
    symbol. While the user drags, the symbol is moved "temporarily" relative to the
    pose it had when the command was created; redo applies the final pose and undo
    restores the start pose. */
module SymbolMoves {
  import opened Results
  import opened Geometry

  /** Point::rotated(angle, center); the trigonometry is not part of this model. */
  type Rotation = (Point, Angle, Point) -> Point

  /** A symbol's position and angle. */
  datatype Pose = Pose(position: Point, angle: Angle)

  /** The command's mutable fields and the pose it gives its symbol. */
  datatype MoveState = MoveState(deltaPos: Point, deltaAngle: Angle, endPos: Point, endAngle: Angle,
                                 redoOrUndoCalled: bool, symbol: Pose)

  /** The pose start + delta. */
  function Moved(start: Pose, deltaPos: Point, deltaAngle: Angle): (p: Pose)
    ensures Sub(p.position, start.position) == deltaPos && p.angle - start.angle == deltaAngle
  {
    Pose(Add(start.position, deltaPos), start.angle + deltaAngle)
  }

  /** The constructor: no delta, and the end pose is the start pose. */
  function Created(start: Pose): MoveState {
    MoveState(Origin, 0, start.position, start.angle, false, start)
  }

  /** Until redo or undo is called, the symbol shows the start pose plus the delta. */
  predicate Tracking(start: Pose, s: MoveState) {
    !s.redoOrUndoCalled ==> s.symbol == Moved(start, s.deltaPos, s.deltaAngle)
  }

  /** setAbsolutePosTemporary: the delta becomes the offset from the start position
      and the symbol moves to the given position. */
  function SetAbsoluteStep(start: Pose, s: MoveState, absPos: Point): (r: MoveState)
    ensures r.symbol.position == absPos && Add(start.position, r.deltaPos) == absPos
    ensures r.symbol.angle == s.symbol.angle && r.deltaAngle == s.deltaAngle
    ensures r.endPos == s.endPos && r.endAngle == s.endAngle && r.redoOrUndoCalled == s.redoOrUndoCalled
  {
    AddSubInverse(start.position, absPos);
    s.(deltaPos := Sub(absPos, start.position), symbol := s.symbol.(position := absPos))
  }

  /** setDeltaToStartPosTemporary: the symbol moves to start + delta. */
  function SetDeltaStep(start: Pose, s: MoveState, deltaPos: Point): (r: MoveState)
    ensures r.deltaPos == deltaPos && Sub(r.symbol.position, start.position) == deltaPos
    ensures r.symbol.angle == s.symbol.angle && r.deltaAngle == s.deltaAngle
    ensures r.endPos == s.endPos && r.endAngle == s.endAngle && r.redoOrUndoCalled == s.redoOrUndoCalled
  {
    AddSubInverse(start.position, deltaPos);
    s.(deltaPos := deltaPos, symbol := s.symbol.(position := Add(start.position, deltaPos)))
  }

  /** rotate: the current position turns about `center`, the angle grows by `angle`. */
  function RotateStep(rot: Rotation, start: Pose, s: MoveState, angle: Angle, center: Point): (r: MoveState)
    ensures r.symbol.position == rot(Add(start.position, s.deltaPos), angle, center)
    ensures r.deltaAngle == s.deltaAngle + angle && r.symbol.angle == start.angle + r.deltaAngle
    ensures Add(start.position, r.deltaPos) == r.symbol.position
    ensures r.endPos == s.endPos && r.endAngle == s.endAngle && r.redoOrUndoCalled == s.redoOrUndoCalled
  {
    AddSubInverse(start.position, rot(Add(start.position, s.deltaPos), angle, center));
    var deltaPos := Sub(rot(Add(start.position, s.deltaPos), angle, center), start.position);
    var deltaAngle := s.deltaAngle + angle;
    s.(deltaPos := deltaPos, deltaAngle := deltaAngle, symbol := Moved(start, deltaPos, deltaAngle))
  }

  /** redo: after UndoCommand::redo succeeds, the end pose is start + delta and the
      symbol takes it. The flag is set first, so it stays set when the base fails. */
  function RedoStep(start: Pose, s: MoveState, base: Outcome): (r: (Outcome, MoveState))
    ensures r.0 == base && r.1.redoOrUndoCalled
    ensures base.Failed? ==> r.1 == s.(redoOrUndoCalled := true)
    ensures base.Done? ==> r.1.symbol == Pose(r.1.endPos, r.1.endAngle) == Moved(start, s.deltaPos, s.deltaAngle)
    ensures r.1.deltaPos == s.deltaPos && r.1.deltaAngle == s.deltaAngle
  {
    var flagged := s.(redoOrUndoCalled := true);
    if base.Failed? then (base, flagged)
    else
      var p := Moved(start, s.deltaPos, s.deltaAngle);
      (Done, flagged.(endPos := p.position, endAngle := p.angle, symbol := p))
  }

  /** undo: after UndoCommand::undo succeeds, the symbol is back at the start pose. */
  function UndoStep(start: Pose, s: MoveState, base: Outcome): (r: (Outcome, MoveState))
    ensures r.0 == base && r.1.redoOrUndoCalled
    ensures base.Failed? ==> r.1 == s.(redoOrUndoCalled := true)
    ensures base.Done? ==> r.1 == s.(redoOrUndoCalled := true, symbol := start)
  {
    var flagged := s.(redoOrUndoCalled := true);
    if base.Failed? then (base, flagged) else (Done, flagged.(symbol := start))
  }

  /** The destructor as written: the start pose is restored only when neither redo nor
      undo was called AND the position delta is not zero. */
  function DestroyedAsWritten(start: Pose, s: MoveState): (p: Pose)
    ensures p == start || p == s.symbol
    ensures s.redoOrUndoCalled ==> p == s.symbol
    ensures IsOrigin(s.deltaPos) ==> p == s.symbol
    ensures !s.redoOrUndoCalled && !IsOrigin(s.deltaPos) ==> p == start
  {
    if !s.redoOrUndoCalled && !IsOrigin(s.deltaPos) then start else s.symbol
  }

  /** The destructor as evidently intended: a temporary edit that was never committed
      by redo (nor undone) is reverted, whether it moved or only rotated the symbol. */
  function Destroyed(start: Pose, s: MoveState): (p: Pose)
    ensures p == start || p == s.symbol
    ensures s.redoOrUndoCalled ==> p == s.symbol
    ensures !s.redoOrUndoCalled && Moved(start, s.deltaPos, s.deltaAngle) != start ==> p == start
  {
    if !s.redoOrUndoCalled && (!IsOrigin(s.deltaPos) || s.deltaAngle != 0) then start else s.symbol
  }

  /** A new command tracks its symbol. */
  lemma CreatedTracks(start: Pose)
    ensures Tracking(start, Created(start))
    ensures Created(start).symbol == start
  {
  }

  /** Both temporary moves keep the symbol at start + delta; setting an absolute
      position is setting the delta to its offset from the start. */
  lemma TemporaryMovesTrack(start: Pose, s: MoveState, absPos: Point, deltaPos: Point)
    requires Tracking(start, s) && !s.redoOrUndoCalled
    ensures Tracking(start, SetAbsoluteStep(start, s, absPos)) && Tracking(start, SetDeltaStep(start, s, deltaPos))
    ensures SetAbsoluteStep(start, s, absPos) == SetDeltaStep(start, s, Sub(absPos, start.position))
    ensures SetAbsoluteStep(start, s, absPos).symbol.position == absPos
  {
  }

  /** rotate keeps the symbol at start + delta, and the symbol's angle is the start
      angle plus every rotation so far. */
  lemma RotateTracks(rot: Rotation, start: Pose, s: MoveState, angle: Angle, center: Point)
    requires Tracking(start, s) && !s.redoOrUndoCalled
    ensures Tracking(start, RotateStep(rot, start, s, angle, center))
    ensures RotateStep(rot, start, s, angle, center).symbol.angle == s.symbol.angle + angle
    ensures RotateStep(rot, start, s, angle, center).symbol.position
            == rot(s.symbol.position, angle, center)
  {
  }

  /** A successful redo shows the end pose, which is what the temporary moves showed;
      a successful undo shows the start pose. */
  lemma RedoUndoPoses(start: Pose, s: MoveState)
    requires Tracking(start, s) && !s.redoOrUndoCalled
    ensures RedoStep(start, s, Done).1.symbol == s.symbol
    ensures RedoStep(start, s, Done).1.symbol == Pose(RedoStep(start, s, Done).1.endPos, RedoStep(start, s, Done).1.endAngle)
    ensures UndoStep(start, s, Done).1.symbol == start
  {
  }

  /** Undo after redo returns the symbol to its start pose, and redo after undo puts
      it where the temporary moves had left it. */
  lemma UndoRedoCycle(start: Pose, s: MoveState)
    requires Tracking(start, s) && !s.redoOrUndoCalled
    ensures UndoStep(start, RedoStep(start, s, Done).1, Done).1.symbol == start
    ensures RedoStep(start, UndoStep(start, s, Done).1, Done).1.symbol == s.symbol
  {
  }

  /** The start pose is restored by the intended destructor whenever the edit was
      never committed, and left alone once redo or undo ran. */
  lemma DestroyedRestores(start: Pose, s: MoveState)
    requires Tracking(start, s)
    ensures !s.redoOrUndoCalled ==> Destroyed(start, s) == start
    ensures s.redoOrUndoCalled ==> Destroyed(start, s) == s.symbol
  {
  }

  /** The destructor as written leaves a rotation-only edit in place: a new command
      rotated about its own position by a non-zero angle (the position does not move,
      so the delta stays zero) is destroyed with the symbol still rotated. */
  lemma RotationOnlyEditKept(rot: Rotation, start: Pose, angle: Angle)
    requires rot(start.position, angle, start.position) == start.position
    requires angle != 0
    ensures var s := RotateStep(rot, start, Created(start), angle, start.position);
            DestroyedAsWritten(start, s) != start && DestroyedAsWritten(start, s).angle == start.angle + angle
  {
  }

  /** The symbol instance; setPosition and setAngle also update the pins and net
      lines, which is not part of this model. */
  class SymbolInstance {
    var position: Point
    var angle: Angle

    function Current(): Pose
      reads this
    {
      Pose(position, angle)
    }

    constructor (p: Pose)
      ensures Current() == p
    {
      position := p.position;
      angle := p.angle;
    }

    method SetPosition(p: Point)
      modifies this`position
      ensures Current() == old(Current()).(position := p)
    {
      position := p;
    }

    method SetAngle(a: Angle)
      modifies this`angle
      ensures Current() == old(Current()).(angle := a)
    {
      angle := a;
    }
  }

  class CmdSymbolInstanceMove {
    const symbolInstance: SymbolInstance
    const rotation: Rotation
    const startPos: Point
    const startAngle: Angle
    var deltaPos: Point
    var deltaAngle: Angle
    var endPos: Point
    var endAngle: Angle
    var redoOrUndoCalled: bool

    function Start(): Pose
      reads this
    {
      Pose(startPos, startAngle)
    }

    function State(): MoveState
      reads this, symbolInstance
    {
      MoveState(deltaPos, deltaAngle, endPos, endAngle, redoOrUndoCalled, symbolInstance.Current())
    }

    constructor (symbol: SymbolInstance, rotation: Rotation)
      ensures symbolInstance == symbol && this.rotation == rotation
      ensures Start() == old(symbol.Current()) && State() == Created(Start())
    {
      symbolInstance := symbol;
      this.rotation := rotation;
      startPos := symbol.position;
      deltaPos := Origin;
      endPos := symbol.position;
      startAngle := symbol.angle;
      deltaAngle := 0;
      endAngle := symbol.angle;
      redoOrUndoCalled := false;
    }

    method SetAbsolutePosTemporary(absPos: Point)
      requires !redoOrUndoCalled
      modifies this`deltaPos, symbolInstance`position
      ensures State() == SetAbsoluteStep(Start(), old(State()), absPos)
    {
      deltaPos := Sub(absPos, startPos);
      symbolInstance.SetPosition(absPos);
    }

    method SetDeltaToStartPosTemporary(delta: Point)
      requires !redoOrUndoCalled
      modifies this`deltaPos, symbolInstance`position
      ensures State() == SetDeltaStep(Start(), old(State()), delta)
    {
      deltaPos := delta;
      symbolInstance.SetPosition(Add(startPos, deltaPos));
    }

    method Rotate(angle: Angle, center: Point)
      requires !redoOrUndoCalled
      modifies this`deltaPos, this`deltaAngle, symbolInstance
      ensures State() == RotateStep(rotation, Start(), old(State()), angle, center)
    {
      deltaPos := Sub(rotation(Add(startPos, deltaPos), angle, center), startPos);
      deltaAngle := deltaAngle + angle;
      symbolInstance.SetPosition(Add(startPos, deltaPos));
      symbolInstance.SetAngle(startAngle + deltaAngle);
    }

    /** `base` is the outcome of UndoCommand::redo, whose code is not part of this model. */
    method Redo(base: Outcome) returns (r: Outcome)
      modifies this, symbolInstance
      ensures (r, State()) == RedoStep(Start(), old(State()), base)
    {
      redoOrUndoCalled := true;
      if base.Failed? {
        return base;
      }
      endPos := Add(startPos, deltaPos);
      endAngle := startAngle + deltaAngle;
      symbolInstance.SetPosition(endPos);
      symbolInstance.SetAngle(endAngle);
      r := Done;
    }

    /** `base` is the outcome of UndoCommand::undo. */
    method Undo(base: Outcome) returns (r: Outcome)
      modifies this`redoOrUndoCalled, symbolInstance
      ensures (r, State()) == UndoStep(Start(), old(State()), base)
    {
      redoOrUndoCalled := true;
      if base.Failed? {
        return base;
      }
      symbolInstance.SetPosition(startPos);
      symbolInstance.SetAngle(startAngle);
      r := Done;
    }

    /** The destructor, with the evidently intended condition (see DestroyedAsWritten
        for the condition as written). */
    method Destroy()
      modifies symbolInstance
      ensures symbolInstance.Current() == Destroyed(Start(), old(State()))
    {
      if !redoOrUndoCalled && (!IsOrigin(deltaPos) || deltaAngle != 0) {
        symbolInstance.SetPosition(startPos);
        symbolInstance.SetAngle(startAngle);
      }
    }
  }
}
