/** NetSignal: a net of the circuit. It counts the elements registered with it
    across four registrant lists, can only be added to or removed from the
    circuit while nothing uses it, and keeps two ERC messages ("unused net
    signal", "connected to less than two pins") in step with its state. */
module Circuits {
  import opened Results
  import opened Seqs
  import opened Uuids

  /** The four kinds of element that register with a net signal. Registrants are
      identified by a handle standing for the object's address. */
  datatype RegistrantKind = ComponentSignal | SchematicNetSegment | BoardNetSegment | BoardPlane

  /** Everything a net signal's methods read and write. `unusedMessage` and
      `lessThanTwoPinsMessage` say whether the corresponding ERC message exists. */
  datatype SignalState = SignalState(
    name: string, hasAutoName: bool, added: bool,
    componentSignals: seq<nat>, schematicNetSegments: seq<nat>,
    boardNetSegments: seq<nat>, boardPlanes: seq<nat>,
    unusedMessage: bool, lessThanTwoPinsMessage: bool)

  function Registrants(s: SignalState, kind: RegistrantKind): seq<nat> {
    match kind
    case ComponentSignal => s.componentSignals
    case SchematicNetSegment => s.schematicNetSegments
    case BoardNetSegment => s.boardNetSegments
    case BoardPlane => s.boardPlanes
  }

  function WithRegistrants(s: SignalState, kind: RegistrantKind, list: seq<nat>): (t: SignalState)
    ensures Registrants(t, kind) == list
    ensures forall k :: k != kind ==> Registrants(t, k) == Registrants(s, k)
    ensures t.name == s.name && t.hasAutoName == s.hasAutoName && t.added == s.added
  {
    match kind
    case ComponentSignal => s.(componentSignals := list)
    case SchematicNetSegment => s.(schematicNetSegments := list)
    case BoardNetSegment => s.(boardNetSegments := list)
    case BoardPlane => s.(boardPlanes := list)
  }

  /** getRegisteredElementsCount. */
  function RegisteredCount(s: SignalState): nat {
    |s.componentSignals| + |s.schematicNetSegments| + |s.boardNetSegments| + |s.boardPlanes|
  }

  /** isUsed. */
  predicate IsUsed(s: SignalState) { RegisteredCount(s) > 0 }

  /** A signal is used exactly when some registrant list is non-empty. */
  lemma UsedIffSomeRegistrant(s: SignalState)
    ensures IsUsed(s) <==> exists k :: Registrants(s, k) != []
  {
    if IsUsed(s) {
      if s.componentSignals != [] { assert Registrants(s, ComponentSignal) != []; }
      else if s.schematicNetSegments != [] { assert Registrants(s, SchematicNetSegment) != []; }
      else if s.boardNetSegments != [] { assert Registrants(s, BoardNetSegment) != []; }
      else { assert Registrants(s, BoardPlane) != []; }
    }
  }

  /** updateErcMessages. */
  function UpdateErcMessages(s: SignalState): (t: SignalState)
    ensures ErcInStep(t)
    ensures t.(unusedMessage := s.unusedMessage, lessThanTwoPinsMessage := s.lessThanTwoPinsMessage) == s
  {
    s.(unusedMessage := s.added && !IsUsed(s),
       lessThanTwoPinsMessage := s.added && |s.componentSignals| < 2)
  }

  /** The "unused" message exists iff the signal is added and unused; the "less
      than two pins" message exists iff it is added and has fewer than two
      component signals. */
  predicate ErcInStep(s: SignalState) {
    s.unusedMessage == (s.added && !IsUsed(s))
    && s.lessThanTwoPinsMessage == (s.added && |s.componentSignals| < 2)
  }

  /** The invariant every net signal keeps: a non-empty name, no element
      registered twice, nothing registered while outside the circuit, and ERC
      messages in step. */
  predicate ValidState(s: SignalState) {
    s.name != []
    && (forall k :: NoDup(Registrants(s, k)))
    && (!s.added ==> !IsUsed(s))
    && ErcInStep(s)
  }

  /** setName. */
  function SetNameStep(s: SignalState, name: string, isAutoName: bool): (res: (Outcome, SignalState))
    ensures name == s.name && isAutoName == s.hasAutoName ==> res == (Done, s)
    ensures res.0.Failed? <==> (name != s.name || isAutoName != s.hasAutoName) && name == []
    ensures res.0.Failed? ==> res.0.error == RuntimeError && res.1 == s
    ensures res.0.Done? ==> res.1.name == name && res.1.hasAutoName == isAutoName
    ensures res.0.Done? && res.1 != s ==> res.1 == UpdateErcMessages(s.(name := name, hasAutoName := isAutoName))
  {
    if name == s.name && isAutoName == s.hasAutoName then (Done, s)
    else if name == [] then (Failed(RuntimeError), s)
    else (Done, UpdateErcMessages(s.(name := name, hasAutoName := isAutoName)))
  }

  /** addToCircuit; `netClassAccepts` is whether the net class's registration succeeds. */
  function AddToCircuitStep(s: SignalState, netClassAccepts: bool): (res: (Outcome, SignalState))
    ensures res.0 == Done <==> !s.added && !IsUsed(s) && netClassAccepts
    ensures (s.added || IsUsed(s)) ==> res.0 == Failed(LogicError)
    ensures res.0.Failed? ==> res.1 == s
    ensures res.0.Done? ==> res.1 == UpdateErcMessages(s.(added := true))
  {
    if s.added || IsUsed(s) then (Failed(LogicError), s)
    else if !netClassAccepts then (Failed(CollaboratorError), s)
    else (Done, UpdateErcMessages(s.(added := true)))
  }

  /** removeFromCircuit; `netClassAccepts` is whether the net class's unregistration succeeds. */
  function RemoveFromCircuitStep(s: SignalState, netClassAccepts: bool): (res: (Outcome, SignalState))
    ensures res.0 == Done <==> s.added && !IsUsed(s) && netClassAccepts
    ensures !s.added ==> res.0 == Failed(LogicError)
    ensures s.added && IsUsed(s) ==> res.0 == Failed(RuntimeError)
    ensures res.0.Failed? ==> res.1 == s
    ensures res.0.Done? ==> res.1 == UpdateErcMessages(s.(added := false))
  {
    if !s.added then (Failed(LogicError), s)
    else if IsUsed(s) then (Failed(RuntimeError), s)
    else if !netClassAccepts then (Failed(CollaboratorError), s)
    else (Done, UpdateErcMessages(s.(added := false)))
  }

  /** register*: `elementCircuit` is the circuit the element belongs to, `circuit` the signal's. */
  function RegisterStep(s: SignalState, circuit: nat, kind: RegistrantKind, id: nat, elementCircuit: nat): (res: (Outcome, SignalState))
    ensures res.0 == Done <==> s.added && id !in Registrants(s, kind) && elementCircuit == circuit
    ensures res.0.Failed? ==> res.0.error == LogicError && res.1 == s
    ensures res.0.Done? ==> res.1 == UpdateErcMessages(WithRegistrants(s, kind, Registrants(s, kind) + [id]))
  {
    if !s.added || id in Registrants(s, kind) || elementCircuit != circuit then (Failed(LogicError), s)
    else (Done, UpdateErcMessages(WithRegistrants(s, kind, Registrants(s, kind) + [id])))
  }

  /** unregister*. */
  function UnregisterStep(s: SignalState, kind: RegistrantKind, id: nat): (res: (Outcome, SignalState))
    ensures res.0 == Done <==> s.added && id in Registrants(s, kind)
    ensures res.0.Failed? ==> res.0.error == LogicError && res.1 == s
    ensures res.0.Done? ==> res.1 == UpdateErcMessages(WithRegistrants(s, kind, RemoveOne(Registrants(s, kind), id)))
  {
    if !s.added || id !in Registrants(s, kind) then (Failed(LogicError), s)
    else (Done, UpdateErcMessages(WithRegistrants(s, kind, RemoveOne(Registrants(s, kind), id))))
  }

  lemma RegistrantsUnchangedByErc(s: SignalState, k: RegistrantKind)
    ensures Registrants(UpdateErcMessages(s), k) == Registrants(s, k)
    ensures RegisteredCount(UpdateErcMessages(s)) == RegisteredCount(s)
  {
  }

  lemma CountAfterUpdate(s: SignalState, kind: RegistrantKind, list: seq<nat>)
    ensures RegisteredCount(WithRegistrants(s, kind, list)) == RegisteredCount(s) - |Registrants(s, kind)| + |list|
  {
  }

  /** A successful registration adds exactly one to the count; registering the
      same element again fails; unregistering it then restores the previous
      state, and with it the previous count. */
  lemma RegisterThenUnregister(s: SignalState, circuit: nat, kind: RegistrantKind, id: nat, elementCircuit: nat)
    requires ValidState(s)
    requires RegisterStep(s, circuit, kind, id, elementCircuit).0 == Done
    ensures var t := RegisterStep(s, circuit, kind, id, elementCircuit).1;
      RegisteredCount(t) == RegisteredCount(s) + 1
      && RegisterStep(t, circuit, kind, id, elementCircuit).0 == Failed(LogicError)
      && UnregisterStep(t, kind, id) == (Done, s)
  {
    var list := Registrants(s, kind);
    var t := UpdateErcMessages(WithRegistrants(s, kind, list + [id]));
    assert RegisterStep(s, circuit, kind, id, elementCircuit).1 == t;
    CountAfterUpdate(s, kind, list + [id]);
    RegistrantsUnchangedByErc(WithRegistrants(s, kind, list + [id]), kind);
    RegistrantsAfter(s, kind, list + [id], kind);
    assert Registrants(t, kind) == list + [id];
    assert t.added;
    RemoveOneAppended(list, id);
    assert UnregisterStep(t, kind, id) == (Done, UpdateErcMessages(WithRegistrants(t, kind, list)));
    var w := WithRegistrants(t, kind, list);
    forall k ensures Registrants(w, k) == Registrants(s, k) {
      if k != kind { RegistrantsAfter(s, kind, list + [id], k); }
    }
    UpdateRestores(w, s);
  }

  /** A state with the registrations, name and flags of a valid state updates its
      ERC messages to exactly that state. */
  lemma UpdateRestores(a: SignalState, b: SignalState)
    requires ErcInStep(b) && a.name == b.name && a.hasAutoName == b.hasAutoName && a.added == b.added
    requires forall k :: Registrants(a, k) == Registrants(b, k)
    ensures UpdateErcMessages(a) == b
  {
    assert Registrants(a, ComponentSignal) == Registrants(b, ComponentSignal);
    assert Registrants(a, SchematicNetSegment) == Registrants(b, SchematicNetSegment);
    assert Registrants(a, BoardNetSegment) == Registrants(b, BoardNetSegment);
    assert Registrants(a, BoardPlane) == Registrants(b, BoardPlane);
  }

  /** The same registrations up to order, and the same name and flags. */
  ghost predicate SameRegistrations(a: SignalState, b: SignalState) {
    a.name == b.name && a.hasAutoName == b.hasAutoName && a.added == b.added
    && a.unusedMessage == b.unusedMessage && a.lessThanTwoPinsMessage == b.lessThanTwoPinsMessage
    && forall k :: multiset(Registrants(a, k)) == multiset(Registrants(b, k))
  }

  lemma SameCounts(a: SignalState, b: SignalState)
    requires forall k :: multiset(Registrants(a, k)) == multiset(Registrants(b, k))
    ensures RegisteredCount(a) == RegisteredCount(b) && |a.componentSignals| == |b.componentSignals|
  {
    assert |multiset(Registrants(a, ComponentSignal))| == |multiset(Registrants(b, ComponentSignal))|;
    assert |multiset(Registrants(a, SchematicNetSegment))| == |multiset(Registrants(b, SchematicNetSegment))|;
    assert |multiset(Registrants(a, BoardNetSegment))| == |multiset(Registrants(b, BoardNetSegment))|;
    assert |multiset(Registrants(a, BoardPlane))| == |multiset(Registrants(b, BoardPlane))|;
  }

  lemma RegistrantsAfter(s: SignalState, kind: RegistrantKind, list: seq<nat>, k: RegistrantKind)
    ensures Registrants(UpdateErcMessages(WithRegistrants(s, kind, list)), k) == if k == kind then list else Registrants(s, k)
  {
    RegistrantsUnchangedByErc(WithRegistrants(s, kind, list), k);
  }

  /** Unregistering a registered element and registering it again succeeds and
      gives back the same registrations, with the element now last in its list. */
  lemma UnregisterThenRegister(s: SignalState, circuit: nat, kind: RegistrantKind, id: nat)
    requires ValidState(s) && id in Registrants(s, kind)
    ensures var u := UnregisterStep(s, kind, id);
      u.0 == Done && RegisterStep(u.1, circuit, kind, id, circuit).0 == Done
      && SameRegistrations(RegisterStep(u.1, circuit, kind, id, circuit).1, s)
  {
    var list := Registrants(s, kind);
    assert RegisteredCount(s) > 0 by { CountAfterUpdate(s, kind, []); }
    RemoveOneElements(list, id);
    RemoveOneMultiset(list, id);
    var u := UnregisterStep(s, kind, id).1;
    RegistrantsAfter(s, kind, RemoveOne(list, id), kind);
    assert id !in Registrants(u, kind);
    var b := RegisterStep(u, circuit, kind, id, circuit).1;
    assert multiset(RemoveOne(list, id) + [id]) == multiset(list);
    forall k ensures multiset(Registrants(b, k)) == multiset(Registrants(s, k)) {
      RegistrantsAfter(s, kind, RemoveOne(list, id), k);
      RegistrantsAfter(u, kind, RemoveOne(list, id) + [id], k);
    }
    SameCounts(b, s);
  }

  /** Every operation keeps the invariant, failed or not. */
  lemma SetNameKeepsValid(s: SignalState, name: string, isAutoName: bool)
    requires ValidState(s)
    ensures ValidState(SetNameStep(s, name, isAutoName).1)
  {
    var n := SetNameStep(s, name, isAutoName);
    forall k ensures Registrants(n.1, k) == Registrants(s, k) {
      RegistrantsUnchangedByErc(s.(name := name, hasAutoName := isAutoName), k);
    }
  }

  lemma AddToCircuitKeepsValid(s: SignalState, accepts: bool)
    requires ValidState(s)
    ensures ValidState(AddToCircuitStep(s, accepts).1)
  {
    var n := AddToCircuitStep(s, accepts);
    forall k ensures Registrants(n.1, k) == Registrants(s, k) {
      RegistrantsUnchangedByErc(s.(added := true), k);
    }
  }

  lemma RemoveFromCircuitKeepsValid(s: SignalState, accepts: bool)
    requires ValidState(s)
    ensures ValidState(RemoveFromCircuitStep(s, accepts).1)
  {
    var n := RemoveFromCircuitStep(s, accepts);
    forall k ensures Registrants(n.1, k) == Registrants(s, k) {
      RegistrantsUnchangedByErc(s.(added := false), k);
    }
  }

  lemma RegisterKeepsValid(s: SignalState, circuit: nat, kind: RegistrantKind, id: nat, elementCircuit: nat)
    requires ValidState(s)
    ensures ValidState(RegisterStep(s, circuit, kind, id, elementCircuit).1)
  {
    var r := RegisterStep(s, circuit, kind, id, elementCircuit);
    if r.0.Done? {
      var w := WithRegistrants(s, kind, Registrants(s, kind) + [id]);
      forall k ensures NoDup(Registrants(r.1, k)) {
        RegistrantsUnchangedByErc(w, k);
      }
    }
  }

  lemma UnregisterKeepsValid(s: SignalState, kind: RegistrantKind, id: nat)
    requires ValidState(s)
    ensures ValidState(UnregisterStep(s, kind, id).1)
  {
    var u := UnregisterStep(s, kind, id);
    if u.0.Done? {
      RemoveOneElements(Registrants(s, kind), id);
      var w := WithRegistrants(s, kind, RemoveOne(Registrants(s, kind), id));
      forall k ensures NoDup(Registrants(u.1, k)) {
        RegistrantsUnchangedByErc(w, k);
      }
    }
  }

  class NetSignal {
    const uuid: Uuid
    /** The circuit this signal belongs to. */
    const circuit: nat
    var name: string
    var hasAutoName: bool
    var addedToCircuit: bool
    var componentSignals: seq<nat>
    var schematicNetSegments: seq<nat>
    var boardNetSegments: seq<nat>
    var boardPlanes: seq<nat>
    var unusedMessage: bool
    var lessThanTwoPinsMessage: bool

    function State(): SignalState
      reads this
    {
      SignalState(name, hasAutoName, addedToCircuit, componentSignals, schematicNetSegments,
                  boardNetSegments, boardPlanes, unusedMessage, lessThanTwoPinsMessage)
    }

    ghost predicate Valid()
      reads this
    {
      ValidState(State())
    }

    /** The member initialisation of the constructor taking a net class, a name and
        the auto-name flag. */
    constructor (uuid: Uuid, circuit: nat, name: string, autoName: bool)
      ensures this.uuid == uuid && this.circuit == circuit
      ensures State() == SignalState(name, autoName, false, [], [], [], [], false, false)
    {
      this.uuid := uuid;
      this.circuit := circuit;
      this.name := name;
      this.hasAutoName := autoName;
      addedToCircuit := false;
      componentSignals, schematicNetSegments, boardNetSegments, boardPlanes := [], [], [], [];
      unusedMessage, lessThanTwoPinsMessage := false, false;
    }

    /** The constructor taking a net class, a name and the auto-name flag: after the
        members are set, the attribute check throws a LogicError for an empty name. */
    static method Create(uuid: Uuid, circuit: nat, name: string, autoName: bool) returns (r: Result<NetSignal>)
      ensures r.Err? <==> name == []
      ensures r.Err? ==> r.error == LogicError
      ensures r.Ok? ==> fresh(r.value) && r.value.Valid()
      ensures r.Ok? ==> r.value.uuid == uuid && r.value.circuit == circuit
      ensures r.Ok? ==> r.value.State() == SignalState(name, autoName, false, [], [], [], [], false, false)
    {
      var signal := new NetSignal(uuid, circuit, name, autoName);
      if signal.name == [] {
        return Err(LogicError);
      }
      return Ok(signal);
    }

    method SetState(s: SignalState)
      modifies this
      ensures State() == s
    {
      name, hasAutoName, addedToCircuit := s.name, s.hasAutoName, s.added;
      componentSignals, schematicNetSegments := s.componentSignals, s.schematicNetSegments;
      boardNetSegments, boardPlanes := s.boardNetSegments, s.boardPlanes;
      unusedMessage, lessThanTwoPinsMessage := s.unusedMessage, s.lessThanTwoPinsMessage;
    }

    /** updateErcMessages. */
    method UpdateErc()
      modifies this`unusedMessage, this`lessThanTwoPinsMessage
      ensures State() == UpdateErcMessages(old(State()))
    {
      var used := |componentSignals| + |schematicNetSegments| + |boardNetSegments| + |boardPlanes| > 0;
      unusedMessage := addedToCircuit && !used;
      lessThanTwoPinsMessage := addedToCircuit && |componentSignals| < 2;
    }

    method SetName(newName: string, isAutoName: bool) returns (r: Outcome)
      requires Valid()
      modifies this
      ensures Valid()
      ensures (r, State()) == SetNameStep(old(State()), newName, isAutoName)
    {
      SetNameKeepsValid(State(), newName, isAutoName);
      if newName == name && isAutoName == hasAutoName {
        return Done;
      }
      if newName == [] {
        return Failed(RuntimeError);
      }
      name := newName;
      hasAutoName := isAutoName;
      UpdateErc();
      r := Done;
    }

    method AddToCircuit(netClassAccepts: bool) returns (r: Outcome)
      requires Valid()
      modifies this
      ensures Valid()
      ensures (r, State()) == AddToCircuitStep(old(State()), netClassAccepts)
    {
      AddToCircuitKeepsValid(State(), netClassAccepts);
      var used := |componentSignals| + |schematicNetSegments| + |boardNetSegments| + |boardPlanes| > 0;
      if addedToCircuit || used {
        return Failed(LogicError);
      }
      if !netClassAccepts {
        return Failed(CollaboratorError);
      }
      addedToCircuit := true;
      UpdateErc();
      r := Done;
    }

    method RemoveFromCircuit(netClassAccepts: bool) returns (r: Outcome)
      requires Valid()
      modifies this
      ensures Valid()
      ensures (r, State()) == RemoveFromCircuitStep(old(State()), netClassAccepts)
    {
      RemoveFromCircuitKeepsValid(State(), netClassAccepts);
      if !addedToCircuit {
        return Failed(LogicError);
      }
      var used := |componentSignals| + |schematicNetSegments| + |boardNetSegments| + |boardPlanes| > 0;
      if used {
        return Failed(RuntimeError);
      }
      if !netClassAccepts {
        return Failed(CollaboratorError);
      }
      addedToCircuit := false;
      UpdateErc();
      r := Done;
    }

    /** registerComponentSignal, registerSchematicNetSegment, registerBoardNetSegment, registerBoardPlane. */
    method Register(kind: RegistrantKind, id: nat, elementCircuit: nat) returns (r: Outcome)
      requires Valid()
      modifies this
      ensures Valid()
      ensures (r, State()) == RegisterStep(old(State()), circuit, kind, id, elementCircuit)
    {
      RegisterKeepsValid(State(), circuit, kind, id, elementCircuit);
      if !addedToCircuit || id in Registrants(State(), kind) || elementCircuit != circuit {
        return Failed(LogicError);
      }
      match kind {
        case ComponentSignal => componentSignals := componentSignals + [id];
        case SchematicNetSegment => schematicNetSegments := schematicNetSegments + [id];
        case BoardNetSegment => boardNetSegments := boardNetSegments + [id];
        case BoardPlane => boardPlanes := boardPlanes + [id];
      }
      UpdateErc();
      r := Done;
    }

    /** unregisterComponentSignal, unregisterSchematicNetSegment, unregisterBoardNetSegment, unregisterBoardPlane. */
    method Unregister(kind: RegistrantKind, id: nat) returns (r: Outcome)
      requires Valid()
      modifies this
      ensures Valid()
      ensures (r, State()) == UnregisterStep(old(State()), kind, id)
    {
      UnregisterKeepsValid(State(), kind, id);
      if !addedToCircuit || id !in Registrants(State(), kind) {
        return Failed(LogicError);
      }
      match kind {
        case ComponentSignal => componentSignals := RemoveOne(componentSignals, id);
        case SchematicNetSegment => schematicNetSegments := RemoveOne(schematicNetSegments, id);
        case BoardNetSegment => boardNetSegments := RemoveOne(boardNetSegments, id);
        case BoardPlane => boardPlanes := RemoveOne(boardPlanes, id);
      }
      UpdateErc();
      r := Done;
    }

    /** isNameForced: whether some registered component signal forces its net
        signal's name. `forced` holds the component signals that do; that
        answer comes from ComponentSignalInstance, which is not part of this model. */
    method IsNameForced(forced: set<nat>) returns (b: bool)
      ensures b <==> exists i :: 0 <= i < |componentSignals| && componentSignals[i] in forced
    {
      for i := 0 to |componentSignals|
        invariant forall j :: 0 <= j < i ==> componentSignals[j] !in forced
      {
        if componentSignals[i] in forced {
          return true;
        }
      }
      return false;
    }
  }
}
