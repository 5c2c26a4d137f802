/** BI_FootprintPad: a pad of a footprint placed on a board. It keeps at most one
    netpoint per copper layer, and puts them all where the pad is. */
module BoardFootprintPads {
  import opened Results
  import opened Geometry
  import opened Circuits
  import opened BoardNetSegments

  /** The component signal instance the pad is connected to; only the net signal it
      currently belongs to matters here. */
  class ComponentSignalInstance {
    var netSignal: NetSignal?

    constructor (netSignal: NetSignal?)
      ensures this.netSignal == netSignal
    {
      this.netSignal := netSignal;
    }
  }

  /** The pad's registration state. */
  datatype PadState = PadState(added: bool, registered: map<string, NetPoint>)

  /** Every netpoint is registered under the name of its own layer, which is a
      copper layer, and only a pad on the board has registered netpoints. */
  ghost predicate ValidPad(s: PadState) {
    (forall n :: n in s.registered ==> s.registered[n].layer.name == n && s.registered[n].layer.isCopper)
    && (s.registered != map[] ==> s.added)
  }

  /** A netpoint is registered under one layer only, so a layer holds at most one
      netpoint and a netpoint sits on at most one layer of the pad. */
  lemma OneLayerPerNetPoint(s: PadState, a: string, b: string)
    requires ValidPad(s) && a in s.registered && b in s.registered
    ensures s.registered[a] == s.registered[b] <==> a == b
  {
  }

  /** addToBoard: refused when on the board or used; registering with the
      component signal (if any) may fail. */
  function PadAddToBoardStep(s: PadState, hasSignal: bool, signalFails: bool): (res: (Outcome, PadState))
    ensures res.0.Done? <==> !s.added && s.registered == map[] && !(hasSignal && signalFails)
    ensures res.0.Done? ==> res.1 == PadState(true, map[])
    ensures res.0.Failed? ==> res.1 == s
  {
    if s.added || s.registered != map[] then (Failed(LogicError), s)
    else if hasSignal && signalFails then (Failed(CollaboratorError), s)
    else (Done, s.(added := true))
  }

  /** removeFromBoard: refused when not on the board or used. */
  function PadRemoveFromBoardStep(s: PadState, hasSignal: bool, signalFails: bool): (res: (Outcome, PadState))
    ensures res.0.Done? <==> s.added && s.registered == map[] && !(hasSignal && signalFails)
    ensures res.0.Done? ==> res.1 == PadState(false, map[])
    ensures res.0.Failed? ==> res.1 == s
  {
    if !s.added || s.registered != map[] then (Failed(LogicError), s)
    else if hasSignal && signalFails then (Failed(CollaboratorError), s)
    else (Done, s.(added := false))
  }

  /** Adding a pad to the board and removing it again gives back the pad as it was. */
  lemma PadAddThenRemove(s: PadState, hasSignal: bool)
    requires PadAddToBoardStep(s, hasSignal, false).0.Done?
    ensures PadRemoveFromBoardStep(PadAddToBoardStep(s, hasSignal, false).1, hasSignal, false) == (Done, s)
  {
  }

  /** Registering a netpoint on a free layer and unregistering it gives back the
      registrations as they were, and each step keeps the invariant. */
  lemma RegisterThenUnregisterNetPoint(s: PadState, np: NetPoint)
    requires ValidPad(s) && s.added && np.layer.name !in s.registered && np.layer.isCopper
    ensures ValidPad(s.(registered := s.registered[np.layer.name := np]))
    ensures s.registered[np.layer.name := np] - {np.layer.name} == s.registered
  {
    assert s.registered[np.layer.name := np] - {np.layer.name} == s.registered;
  }

  class FootprintPad {
    /** The name of the package pad. */
    const padName: string
    /** The layer of the library footprint pad, and the library pad's own layer test. */
    const libLayerName: string
    const libIsOnLayer: string -> bool
    /** The graphics-layer name mirroring, a function of the layer name. */
    const mirrorLayer: string -> string
    const board: nat
    const compSignal: ComponentSignalInstance?
    /** Whether the footprint is mirrored. */
    var mirrored: bool
    var addedToBoard: bool
    var registered: map<string, NetPoint>
    var position: Point

    function State(): PadState
      reads this
    {
      PadState(addedToBoard, registered)
    }

    ghost predicate Valid()
      reads this
    {
      ValidPad(State())
    }

    constructor (padName: string, libLayerName: string, libIsOnLayer: string -> bool, mirrorLayer: string -> string,
                 board: nat, compSignal: ComponentSignalInstance?, mirrored: bool, position: Point)
      ensures Valid() && !addedToBoard && registered == map[]
      ensures this.padName == padName && this.libLayerName == libLayerName && this.libIsOnLayer == libIsOnLayer
      ensures this.mirrorLayer == mirrorLayer && this.board == board && this.compSignal == compSignal
      ensures this.mirrored == mirrored && this.position == position
    {
      this.padName := padName;
      this.libLayerName := libLayerName;
      this.libIsOnLayer := libIsOnLayer;
      this.mirrorLayer := mirrorLayer;
      this.board := board;
      this.compSignal := compSignal;
      this.mirrored := mirrored;
      addedToBoard := false;
      registered := map[];
      this.position := position;
    }

    /** isUsed: a netpoint is registered. */
    function IsUsed(): (b: bool)
      reads this
      ensures b <==> exists n :: n in registered
    {
      registered != map[]
    }

    /** getLayerName: the library pad's layer, mirrored with the footprint. */
    function LayerName(): (n: string)
      reads this
      ensures mirrored ==> n == mirrorLayer(libLayerName)
      ensures !mirrored ==> n == libLayerName
    {
      if mirrored then mirrorLayer(libLayerName) else libLayerName
    }

    /** isOnLayer: the library pad's test on the layer as seen from the footprint. */
    function IsOnLayer(layerName: string): (b: bool)
      reads this
      ensures mirrored ==> (b <==> libIsOnLayer(mirrorLayer(layerName)))
      ensures !mirrored ==> (b <==> libIsOnLayer(layerName))
    {
      if mirrored then libIsOnLayer(mirrorLayer(layerName)) else libIsOnLayer(layerName)
    }

    /** When mirroring a layer name twice gives it back, a pad is on the layer it
        reports exactly when the library pad is on its own layer, mirrored or not. */
    lemma OnOwnLayer()
      requires mirrorLayer(mirrorLayer(libLayerName)) == libLayerName
      ensures IsOnLayer(LayerName()) <==> libIsOnLayer(libLayerName)
    {
    }

    /** getCompSigInstNetSignal: the net signal of the component signal, or null
        when the pad has no component signal. */
    function CompSigInstNetSignal(): (s: NetSignal?)
      reads this, compSignal
      ensures compSignal == null ==> s == null
      ensures compSignal != null ==> s == compSignal.netSignal
    {
      if compSignal != null then compSignal.netSignal else null
    }

    /** getDisplayText: the pad name, followed by a colon, a line break and the
        net signal's name when there is a net signal. */
    function DisplayText(): (t: string)
      reads this, compSignal, CompSigInstNetSignal()
      ensures |t| >= |padName| && t[..|padName|] == padName
      ensures CompSigInstNetSignal() == null <==> t == padName
      ensures CompSigInstNetSignal() != null ==> t[|padName|..] == ":\n" + CompSigInstNetSignal().name
    {
      var signal := CompSigInstNetSignal();
      if signal != null then padName + ":\n" + signal.name else padName
    }

    /** addToBoard: `signalFails` stands for the component signal refusing the pad. */
    method AddToBoard(signalFails: bool) returns (r: Outcome)
      requires Valid()
      modifies this`addedToBoard
      ensures Valid()
      ensures (r, State()) == PadAddToBoardStep(old(State()), compSignal != null, signalFails)
    {
      if addedToBoard || IsUsed() {
        return Failed(LogicError);
      }
      if compSignal != null && signalFails {
        return Failed(CollaboratorError);
      }
      addedToBoard := true;
      r := Done;
    }

    /** removeFromBoard: `signalFails` stands for the component signal failing to
        let the pad go. */
    method RemoveFromBoard(signalFails: bool) returns (r: Outcome)
      requires Valid()
      modifies this`addedToBoard
      ensures Valid()
      ensures (r, State()) == PadRemoveFromBoardStep(old(State()), compSignal != null, signalFails)
    {
      if !addedToBoard || IsUsed() {
        return Failed(LogicError);
      }
      if compSignal != null && signalFails {
        return Failed(CollaboratorError);
      }
      addedToBoard := false;
      r := Done;
    }

    /** The conditions registerNetPoint checks. */
    predicate CanRegister(np: NetPoint)
      reads this, compSignal, np.segment
    {
      addedToBoard && compSignal != null && np.segment.board == board
      && np.layer.name !in registered && np.segment.netSignal == compSignal.netSignal
      && np.layer.isCopper && IsOnLayer(np.layer.name)
    }

    /** registerNetPoint: only a pad on the board with a component signal accepts a
        netpoint of the same board and net signal, on a free copper layer the pad is on. */
    method RegisterNetPoint(np: NetPoint) returns (r: Outcome)
      requires Valid()
      modifies this`registered
      ensures Valid()
      ensures r.Done? <==> old(CanRegister(np))
      ensures r.Done? ==> registered == old(registered)[np.layer.name := np]
      ensures r.Failed? ==> r.error == LogicError && registered == old(registered)
    {
      if !addedToBoard || compSignal == null || np.segment.board != board || np.layer.name in registered
         || np.segment.netSignal != compSignal.netSignal || !np.layer.isCopper || !IsOnLayer(np.layer.name) {
        return Failed(LogicError);
      }
      RegisterThenUnregisterNetPoint(State(), np);
      registered := registered[np.layer.name := np];
      r := Done;
    }

    /** The conditions unregisterNetPoint checks. */
    predicate CanUnregister(np: NetPoint)
      reads this, compSignal, np.segment
    {
      addedToBoard && compSignal != null && np.layer.name in registered && registered[np.layer.name] == np
      && np.segment.netSignal == compSignal.netSignal
    }

    /** unregisterNetPoint: the netpoint must be the one registered for its layer;
        only that layer's entry goes. */
    method UnregisterNetPoint(np: NetPoint) returns (r: Outcome)
      requires Valid()
      modifies this`registered
      ensures Valid()
      ensures r.Done? <==> old(CanUnregister(np))
      ensures r.Done? ==> registered == old(registered) - {np.layer.name}
      ensures r.Failed? ==> r.error == LogicError && registered == old(registered)
    {
      if !addedToBoard || compSignal == null || np.layer.name !in registered || registered[np.layer.name] != np
         || np.segment.netSignal != compSignal.netSignal {
        return Failed(LogicError);
      }
      registered := registered - {np.layer.name};
      r := Done;
    }

    /** updatePosition: the pad moves to `scenePosition` (the footprint's mapping
        of the library pad position) and takes every registered netpoint with it. */
    method UpdatePosition(scenePosition: Point)
      modifies this`position, (set n | n in registered :: registered[n])`position
      ensures position == scenePosition
      ensures forall n :: n in registered ==> registered[n].position == scenePosition
    {
      position := scenePosition;
      var todo := registered.Keys;
      while todo != {}
        invariant registered == old(registered) && position == scenePosition && todo <= registered.Keys
        invariant forall n :: n in registered && n !in todo ==> registered[n].position == scenePosition
        decreases |todo|
      {
        var n :| n in todo;
        registered[n].position := scenePosition;
        todo := todo - {n};
      }
    }
  }
}
