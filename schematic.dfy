/** Schematic: one sheet of a project, owning its symbols and net segments. */
module Schematics {
  import opened Results
  import opened Seqs
  import opened Strings
  import opened Uuids

  /** A symbol instance (SI_Symbol): its UUID and the schematic it was created for. */
  class Symbol {
    const uuid: Uuid
    const schematic: Schematic

    constructor (schematic: Schematic, uuid: Uuid)
      ensures this.schematic == schematic && this.uuid == uuid
    {
      this.schematic := schematic;
      this.uuid := uuid;
    }
  }

  /** A schematic net segment (SI_NetSegment), likewise. */
  class NetSegment {
    const uuid: Uuid
    const schematic: Schematic

    constructor (schematic: Schematic, uuid: Uuid)
      ensures this.schematic == schematic && this.uuid == uuid
    {
      this.schematic := schematic;
      this.uuid := uuid;
    }
  }

  /** What the schematic needs to know of an item kind. */
  datatype Kind<!E> = Kind(uuidOf: E -> Uuid, schematicOf: E -> Schematic)

  function SymbolUuid(x: Symbol): Uuid { x.uuid }
  function SymbolSchematic(x: Symbol): Schematic { x.schematic }
  function SegmentUuid(x: NetSegment): Uuid { x.uuid }
  function SegmentSchematic(x: NetSegment): Schematic { x.schematic }

  const Symbols: Kind<Symbol> := Kind(SymbolUuid, SymbolSchematic)
  const Segments: Kind<NetSegment> := Kind(SegmentUuid, SegmentSchematic)

  /** A list of items, and those of them currently added to the schematic. */
  datatype Items<E> = Items(list: seq<E>, attached: set<E>)

  /** No item twice, no two items with one UUID, every item made for `sch`, and
      the items are added to the schematic exactly while it is added to the project. */
  ghost predicate ValidItems<E>(k: Kind<E>, sch: Schematic, added: bool, it: Items<E>) {
    NoDup(it.list)
    && (forall x, y :: x in it.list && y in it.list && k.uuidOf(x) == k.uuidOf(y) ==> x == y)
    && (forall x :: x in it.list ==> k.schematicOf(x) == sch)
    && it.attached == (if added then set x | x in it.list else {})
  }

  /** addSymbol / addNetSegment: `fails` stands for the item's own addToSchematic throwing. */
  function AddItemStep<E(==)>(k: Kind<E>, sch: Schematic, added: bool, it: Items<E>, e: E, fails: bool): (res: (Outcome, Items<E>))
    ensures res.0.Failed? ==> res.1 == it
    ensures res.0.Done? <==> added && e !in it.list && k.schematicOf(e) == sch && !fails
                             && forall x :: x in it.list ==> k.uuidOf(x) != k.uuidOf(e)
  {
    if !added || e in it.list || k.schematicOf(e) != sch then (Failed(LogicError), it)
    else if exists x :: x in it.list && k.uuidOf(x) == k.uuidOf(e) then (Failed(RuntimeError), it)
    else if fails then (Failed(CollaboratorError), it)
    else (Done, Items(it.list + [e], it.attached + {e}))
  }

  /** removeSymbol / removeNetSegment: `fails` stands for the item's own
      removeFromSchematic throwing. */
  function RemoveItemStep<E(==)>(added: bool, it: Items<E>, e: E, fails: bool): (res: (Outcome, Items<E>))
    ensures res.0.Failed? ==> res.1 == it
    ensures res.0.Done? <==> added && e in it.list && !fails
  {
    if !added || e !in it.list then (Failed(LogicError), it)
    else if fails then (Failed(CollaboratorError), it)
    else (Done, Items(RemoveOne(it.list, e), it.attached - {e}))
  }

  /** An accepted item is listed and attached after its add, along with the
      items that were there, and the invariant holds. */
  lemma AddItemKeepsValid<E>(k: Kind<E>, sch: Schematic, added: bool, it: Items<E>, e: E, fails: bool)
    requires ValidItems(k, sch, added, it)
    ensures var res := AddItemStep(k, sch, added, it, e, fails);
      ValidItems(k, sch, added, res.1)
      && (res.0.Done? ==> (forall x :: x in res.1.list <==> x in it.list || x == e) && e in res.1.attached)
  {
    var res := AddItemStep(k, sch, added, it, e, fails);
    if res.0.Done? {
      assert (set x | x in it.list + [e]) == (set x | x in it.list) + {e};
    }
  }

  /** A removed item is neither listed nor attached afterwards, every other item
      stays, and the invariant holds. */
  lemma RemoveItemKeepsValid<E>(k: Kind<E>, sch: Schematic, added: bool, it: Items<E>, e: E, fails: bool)
    requires ValidItems(k, sch, added, it)
    ensures var res := RemoveItemStep(added, it, e, fails);
      ValidItems(k, sch, added, res.1)
      && (res.0.Done? ==> (forall x :: x in res.1.list <==> x in it.list && x != e) && e !in res.1.attached)
  {
    var res := RemoveItemStep(added, it, e, fails);
    if res.0.Done? {
      RemoveOneElements(it.list, e);
      RemoveOneSet(it.list, e);
    }
  }

  /** Adding an item and removing it again gives back the list and the attached items. */
  lemma AddThenRemoveItem<E>(k: Kind<E>, sch: Schematic, added: bool, it: Items<E>, e: E)
    requires ValidItems(k, sch, added, it)
    requires AddItemStep(k, sch, added, it, e, false).0 == Done
    ensures RemoveItemStep(added, AddItemStep(k, sch, added, it, e, false).1, e, false) == (Done, it)
  {
    RemoveOneAppended(it.list, e);
  }

  /** The schematic's state: added to the project, its symbols and its net segments. */
  datatype SchState = SchState(added: bool, symbols: Items<Symbol>, segments: Items<NetSegment>)

  ghost predicate ValidSch(sch: Schematic, s: SchState) {
    ValidItems(Symbols, sch, s.added, s.symbols) && ValidItems(Segments, sch, s.added, s.segments)
  }

  /** addToProject: refused when added; adds every symbol, then every net segment,
      to the schematic, and a failure of any of them undoes everything. */
  function AddToProjectStep(s: SchState, symbolsFailing: set<Symbol>, segmentsFailing: set<NetSegment>): (res: (Outcome, SchState))
    ensures res.0.Failed? ==> res.1 == s
  {
    if s.added then (Failed(LogicError), s)
    else if exists x :: x in s.symbols.list && x in symbolsFailing then (Failed(CollaboratorError), s)
    else if exists x :: x in s.segments.list && x in segmentsFailing then (Failed(CollaboratorError), s)
    else (Done, SchState(true, Items(s.symbols.list, set x | x in s.symbols.list),
                               Items(s.segments.list, set x | x in s.segments.list)))
  }

  /** removeFromProject: refused when not added; removes every net segment, then
      every symbol, from the schematic, all or nothing. */
  function RemoveFromProjectStep(s: SchState, symbolsFailing: set<Symbol>, segmentsFailing: set<NetSegment>): (res: (Outcome, SchState))
    ensures res.0.Failed? ==> res.1 == s
  {
    if !s.added then (Failed(LogicError), s)
    else if exists x :: x in s.segments.list && x in segmentsFailing then (Failed(CollaboratorError), s)
    else if exists x :: x in s.symbols.list && x in symbolsFailing then (Failed(CollaboratorError), s)
    else (Done, SchState(false, Items(s.symbols.list, {}), Items(s.segments.list, {})))
  }

  /** Both project operations keep the invariant; after a successful one the
      schematic is in the requested state with the same lists, and adding then
      removing gives back the schematic as it was. */
  lemma ProjectStepsKeepValid(sch: Schematic, s: SchState, symbolsFailing: set<Symbol>, segmentsFailing: set<NetSegment>)
    requires ValidSch(sch, s)
    ensures var a := AddToProjectStep(s, symbolsFailing, segmentsFailing);
      ValidSch(sch, a.1) && (a.0.Done? ==> a.1.added && RemoveFromProjectStep(a.1, {}, {}) == (Done, s))
    ensures var r := RemoveFromProjectStep(s, symbolsFailing, segmentsFailing);
      ValidSch(sch, r.1) && (r.0.Done? ==> !r.1.added && AddToProjectStep(r.1, {}, {}) == (Done, s))
  {
  }

  /** The compensating actions of addToProject and removeFromProject. */
  datatype SchUndo =
    | DetachSymbol(symbol: Symbol) | DetachSegment(segment: NetSegment)
    | AttachSymbol(symbol: Symbol) | AttachSegment(segment: NetSegment)

  function ApplySchUndo(s: SchState, u: SchUndo): SchState {
    match u
    case DetachSymbol(x) => s.(symbols := s.symbols.(attached := s.symbols.attached - {x}))
    case DetachSegment(x) => s.(segments := s.segments.(attached := s.segments.attached - {x}))
    case AttachSymbol(x) => s.(symbols := s.symbols.(attached := s.symbols.attached + {x}))
    case AttachSegment(x) => s.(segments := s.segments.(attached := s.segments.attached + {x}))
  }

  /** The state after running a log of compensating actions, the most recent first. */
  function UnwoundSch(s: SchState, log: seq<SchUndo>): SchState
    decreases |log|
  {
    if log == [] then s else UnwoundSch(ApplySchUndo(s, log[|log| - 1]), log[..|log| - 1])
  }

  lemma UnwoundSchLast(s: SchState, log: seq<SchUndo>, u: SchUndo)
    ensures UnwoundSch(s, log + [u]) == UnwoundSch(ApplySchUndo(s, u), log)
  {
    assert (log + [u])[..|log|] == log;
  }

  class Schematic {
    const uuid: Uuid
    var name: string
    var addedToProject: bool
    var symbols: seq<Symbol>
    var symbolsAttached: set<Symbol>
    var netSegments: seq<NetSegment>
    var segmentsAttached: set<NetSegment>

    function State(): SchState
      reads this
    {
      SchState(addedToProject, Items(symbols, symbolsAttached), Items(netSegments, segmentsAttached))
    }

    /** The items are consistent and the attributes are valid (a non-empty name). */
    ghost predicate Valid()
      reads this
    {
      ValidSch(this, State()) && CheckAttributesValidity()
    }

    /** The constructor's common part: an empty schematic, not added to the project,
        with the given name (empty for the loading constructor until the file's name
        is read). */
    constructor (uuid: Uuid, name: string)
      ensures !addedToProject && symbols == [] && netSegments == []
      ensures symbolsAttached == {} && segmentsAttached == {}
      ensures this.uuid == uuid && this.name == name
    {
      this.uuid := uuid;
      this.name := name;
      addedToProject := false;
      symbols, netSegments := [], [];
      symbolsAttached, segmentsAttached := {}, {};
    }

    /** Schematic::create: the constructor sets the new name, then the attribute
        check throws a LogicError when the name is empty. */
    static method Create(uuid: Uuid, name: string) returns (r: Result<Schematic>)
      ensures r.Err? <==> name == []
      ensures r.Err? ==> r.error == LogicError
      ensures r.Ok? ==> fresh(r.value) && r.value.Valid() && !r.value.addedToProject
      ensures r.Ok? ==> r.value.symbols == [] && r.value.netSegments == []
      ensures r.Ok? ==> r.value.uuid == uuid && r.value.name == name
    {
      var s := new Schematic(uuid, name);
      if !s.CheckAttributesValidity() {
        return Err(LogicError);
      }
      return Ok(s);
    }

    /** isEmpty: no symbol and no net segment. */
    function IsEmpty(): (b: bool)
      reads this
      ensures b <==> (forall x :: x !in symbols) && (forall y :: y !in netSegments)
    {
      if symbols != [] then assert symbols[0] in symbols; false
      else if netSegments != [] then assert netSegments[0] in netSegments; false
      else true
    }

    /** checkAttributesValidity: the name is not empty. */
    predicate CheckAttributesValidity() reads this { name != [] }

    /** getBuiltInAttributeValue: SHEET is the name, PAGE the 1-based position of
        the schematic in the project (`schematicIndex`, -1 when absent), any other
        key the empty text. */
    function BuiltInAttributeValue(key: string, schematicIndex: int): (v: string)
      requires schematicIndex >= -1
      reads this
      ensures key == "SHEET" ==> v == name
      ensures key == "PAGE" ==> v == Decimal(schematicIndex + 1) && ParseDecimal(v) == schematicIndex + 1
      ensures key != "SHEET" && key != "PAGE" ==> v == []
    {
      if key == "SHEET" then name
      else if key == "PAGE" then DecimalRoundTrip(schematicIndex + 1); Decimal(schematicIndex + 1)
      else []
    }

    method GetSymbolByUuid(u: Uuid) returns (r: Option<Symbol>)
      ensures r.None? <==> forall x :: x in symbols ==> x.uuid != u
      ensures r.Some? ==> exists i :: 0 <= i < |symbols| && symbols[i] == r.value && r.value.uuid == u
                                      && forall j :: 0 <= j < i ==> symbols[j].uuid != u
    {
      r := FindByUuid(SymbolUuid, symbols, u);
    }

    method GetNetSegmentByUuid(u: Uuid) returns (r: Option<NetSegment>)
      ensures r.None? <==> forall x :: x in netSegments ==> x.uuid != u
      ensures r.Some? ==> exists i :: 0 <= i < |netSegments| && netSegments[i] == r.value && r.value.uuid == u
                                      && forall j :: 0 <= j < i ==> netSegments[j].uuid != u
    {
      r := FindByUuid(SegmentUuid, netSegments, u);
    }

    /** addSymbol: `fails` stands for the symbol's addToSchematic throwing. */
    method AddSymbol(symbol: Symbol, fails: bool) returns (r: Outcome)
      requires Valid()
      modifies this`symbols, this`symbolsAttached
      ensures Valid()
      ensures (r, State().symbols) == AddItemStep(Symbols, this, addedToProject, old(State().symbols), symbol, fails)
    {
      AddItemKeepsValid(Symbols, this, addedToProject, State().symbols, symbol, fails);
      if !addedToProject || symbol in symbols || symbol.schematic != this {
        return Failed(LogicError);
      }
      var found := GetSymbolByUuid(symbol.uuid);
      if found.Some? {
        return Failed(RuntimeError);
      }
      if fails {
        return Failed(CollaboratorError);
      }
      symbolsAttached := symbolsAttached + {symbol};
      symbols := symbols + [symbol];
      r := Done;
    }

    /** removeSymbol: `fails` stands for the symbol's removeFromSchematic throwing. */
    method RemoveSymbol(symbol: Symbol, fails: bool) returns (r: Outcome)
      requires Valid()
      modifies this`symbols, this`symbolsAttached
      ensures Valid()
      ensures (r, State().symbols) == RemoveItemStep(addedToProject, old(State().symbols), symbol, fails)
    {
      RemoveItemKeepsValid(Symbols, this, addedToProject, State().symbols, symbol, fails);
      if !addedToProject || symbol !in symbols {
        return Failed(LogicError);
      }
      if fails {
        return Failed(CollaboratorError);
      }
      symbolsAttached := symbolsAttached - {symbol};
      symbols := RemoveOne(symbols, symbol);
      r := Done;
    }

    /** addNetSegment: as addSymbol. */
    method AddNetSegment(segment: NetSegment, fails: bool) returns (r: Outcome)
      requires Valid()
      modifies this`netSegments, this`segmentsAttached
      ensures Valid()
      ensures (r, State().segments) == AddItemStep(Segments, this, addedToProject, old(State().segments), segment, fails)
    {
      AddItemKeepsValid(Segments, this, addedToProject, State().segments, segment, fails);
      if !addedToProject || segment in netSegments || segment.schematic != this {
        return Failed(LogicError);
      }
      var found := GetNetSegmentByUuid(segment.uuid);
      if found.Some? {
        return Failed(RuntimeError);
      }
      if fails {
        return Failed(CollaboratorError);
      }
      segmentsAttached := segmentsAttached + {segment};
      netSegments := netSegments + [segment];
      r := Done;
    }

    /** removeNetSegment: as removeSymbol. */
    method RemoveNetSegment(segment: NetSegment, fails: bool) returns (r: Outcome)
      requires Valid()
      modifies this`netSegments, this`segmentsAttached
      ensures Valid()
      ensures (r, State().segments) == RemoveItemStep(addedToProject, old(State().segments), segment, fails)
    {
      RemoveItemKeepsValid(Segments, this, addedToProject, State().segments, segment, fails);
      if !addedToProject || segment !in netSegments {
        return Failed(LogicError);
      }
      if fails {
        return Failed(CollaboratorError);
      }
      segmentsAttached := segmentsAttached - {segment};
      netSegments := RemoveOne(netSegments, segment);
      r := Done;
    }

    /** Runs one compensating action. */
    method Compensate(u: SchUndo)
      modifies this`symbolsAttached, this`segmentsAttached
      ensures State() == ApplySchUndo(old(State()), u)
    {
      match u {
        case DetachSymbol(x) => symbolsAttached := symbolsAttached - {x};
        case DetachSegment(x) => segmentsAttached := segmentsAttached - {x};
        case AttachSymbol(x) => symbolsAttached := symbolsAttached + {x};
        case AttachSegment(x) => segmentsAttached := segmentsAttached + {x};
      }
    }

    /** Runs a log of compensating actions, the most recent first. */
    method Unwind(log: seq<SchUndo>)
      modifies this`symbolsAttached, this`segmentsAttached
      ensures State() == UnwoundSch(old(State()), log)
    {
      var i := |log|;
      assert log[..i] == log;
      while i > 0
        invariant 0 <= i <= |log|
        invariant UnwoundSch(old(State()), log) == UnwoundSch(State(), log[..i])
      {
        assert log[..i][..i - 1] == log[..i - 1];
        Compensate(log[i - 1]);
        i := i - 1;
      }
    }

    /** The symbol loop of addToProject. */
    method AttachSymbols(failing: set<Symbol>, log0: seq<SchUndo>) returns (ok: bool, log: seq<SchUndo>)
      requires NoDup(symbols) && forall x :: x in symbols ==> x !in symbolsAttached
      modifies this`symbolsAttached
      ensures ok <==> forall x :: x in symbols ==> x !in failing
      ensures ok ==> symbolsAttached == old(symbolsAttached) + set x | x in symbols
      ensures UnwoundSch(State(), log) == UnwoundSch(old(State()), log0)
    {
      log := log0;
      for i := 0 to |symbols|
        invariant symbolsAttached == old(symbolsAttached) + set x | x in symbols[..i]
        invariant forall j :: 0 <= j < i ==> symbols[j] !in failing
        invariant UnwoundSch(State(), log) == UnwoundSch(old(State()), log0)
      {
        var x := symbols[i];
        if x in failing {
          return false, log;
        }
        assert x !in symbols[..i];
        var before := State();
        symbolsAttached := symbolsAttached + {x};
        assert ApplySchUndo(State(), DetachSymbol(x)) == before;
        UnwoundSchLast(State(), log, DetachSymbol(x));
        log := log + [DetachSymbol(x)];
        assert symbols[..i + 1] == symbols[..i] + [x];
      }
      assert symbols[..|symbols|] == symbols;
      ok := true;
    }

    /** The net segment loop of addToProject. */
    method AttachSegments(failing: set<NetSegment>, log0: seq<SchUndo>) returns (ok: bool, log: seq<SchUndo>)
      requires NoDup(netSegments) && forall x :: x in netSegments ==> x !in segmentsAttached
      modifies this`segmentsAttached
      ensures ok <==> forall x :: x in netSegments ==> x !in failing
      ensures ok ==> segmentsAttached == old(segmentsAttached) + set x | x in netSegments
      ensures UnwoundSch(State(), log) == UnwoundSch(old(State()), log0)
    {
      log := log0;
      for i := 0 to |netSegments|
        invariant segmentsAttached == old(segmentsAttached) + set x | x in netSegments[..i]
        invariant forall j :: 0 <= j < i ==> netSegments[j] !in failing
        invariant UnwoundSch(State(), log) == UnwoundSch(old(State()), log0)
      {
        var x := netSegments[i];
        if x in failing {
          return false, log;
        }
        assert x !in netSegments[..i];
        var before := State();
        segmentsAttached := segmentsAttached + {x};
        assert ApplySchUndo(State(), DetachSegment(x)) == before;
        UnwoundSchLast(State(), log, DetachSegment(x));
        log := log + [DetachSegment(x)];
        assert netSegments[..i + 1] == netSegments[..i] + [x];
      }
      assert netSegments[..|netSegments|] == netSegments;
      ok := true;
    }

    /** The net segment loop of removeFromProject. */
    method DetachSegments(failing: set<NetSegment>, log0: seq<SchUndo>) returns (ok: bool, log: seq<SchUndo>)
      requires NoDup(netSegments) && forall x :: x in netSegments ==> x in segmentsAttached
      modifies this`segmentsAttached
      ensures ok <==> forall x :: x in netSegments ==> x !in failing
      ensures ok ==> segmentsAttached == old(segmentsAttached) - set x | x in netSegments
      ensures UnwoundSch(State(), log) == UnwoundSch(old(State()), log0)
    {
      log := log0;
      for i := 0 to |netSegments|
        invariant segmentsAttached == old(segmentsAttached) - set x | x in netSegments[..i]
        invariant forall j :: 0 <= j < i ==> netSegments[j] !in failing
        invariant UnwoundSch(State(), log) == UnwoundSch(old(State()), log0)
      {
        var x := netSegments[i];
        if x in failing {
          return false, log;
        }
        assert x !in netSegments[..i];
        var before := State();
        segmentsAttached := segmentsAttached - {x};
        assert ApplySchUndo(State(), AttachSegment(x)) == before;
        UnwoundSchLast(State(), log, AttachSegment(x));
        log := log + [AttachSegment(x)];
        assert netSegments[..i + 1] == netSegments[..i] + [x];
      }
      assert netSegments[..|netSegments|] == netSegments;
      ok := true;
    }

    /** The symbol loop of removeFromProject. */
    method DetachSymbols(failing: set<Symbol>, log0: seq<SchUndo>) returns (ok: bool, log: seq<SchUndo>)
      requires NoDup(symbols) && forall x :: x in symbols ==> x in symbolsAttached
      modifies this`symbolsAttached
      ensures ok <==> forall x :: x in symbols ==> x !in failing
      ensures ok ==> symbolsAttached == old(symbolsAttached) - set x | x in symbols
      ensures UnwoundSch(State(), log) == UnwoundSch(old(State()), log0)
    {
      log := log0;
      for i := 0 to |symbols|
        invariant symbolsAttached == old(symbolsAttached) - set x | x in symbols[..i]
        invariant forall j :: 0 <= j < i ==> symbols[j] !in failing
        invariant UnwoundSch(State(), log) == UnwoundSch(old(State()), log0)
      {
        var x := symbols[i];
        if x in failing {
          return false, log;
        }
        assert x !in symbols[..i];
        var before := State();
        symbolsAttached := symbolsAttached - {x};
        assert ApplySchUndo(State(), AttachSymbol(x)) == before;
        UnwoundSchLast(State(), log, AttachSymbol(x));
        log := log + [AttachSymbol(x)];
        assert symbols[..i + 1] == symbols[..i] + [x];
      }
      assert symbols[..|symbols|] == symbols;
      ok := true;
    }

    /** addToProject: `symbolsFailing` and `segmentsFailing` hold the items whose
        own addToSchematic throws. */
    method AddToProject(symbolsFailing: set<Symbol>, segmentsFailing: set<NetSegment>) returns (r: Outcome)
      requires Valid()
      modifies this
      ensures Valid() && name == old(name)
      ensures (r, State()) == AddToProjectStep(old(State()), symbolsFailing, segmentsFailing)
    {
      ghost var s0 := State();
      if addedToProject {
        return Failed(LogicError);
      }
      var ok, log := AttachSymbols(symbolsFailing, []);
      ghost var symbolsOk := ok;
      if ok {
        ok, log := AttachSegments(segmentsFailing, log);
      }
      if !ok {
        if !symbolsOk {
          var x :| x in symbols && x in symbolsFailing;
          assert x in s0.symbols.list;
        } else {
          var x :| x in netSegments && x in segmentsFailing;
          assert x in s0.segments.list;
        }
        assert AddToProjectStep(s0, symbolsFailing, segmentsFailing) == (Failed(CollaboratorError), s0);
        Unwind(log);
        return Failed(CollaboratorError);
      }
      assert s0.symbols.attached == {} && s0.segments.attached == {};
      assert symbolsAttached == set x | x in symbols;
      assert segmentsAttached == set x | x in netSegments;
      addedToProject := true;
      assert AddToProjectStep(s0, symbolsFailing, segmentsFailing) == (Done, State());
      r := Done;
    }

    /** removeFromProject: as addToProject, the other way round. */
    method RemoveFromProject(symbolsFailing: set<Symbol>, segmentsFailing: set<NetSegment>) returns (r: Outcome)
      requires Valid()
      modifies this
      ensures Valid() && name == old(name)
      ensures (r, State()) == RemoveFromProjectStep(old(State()), symbolsFailing, segmentsFailing)
    {
      ghost var s0 := State();
      if !addedToProject {
        return Failed(LogicError);
      }
      var ok, log := DetachSegments(segmentsFailing, []);
      ghost var segmentsOk := ok;
      if ok {
        ok, log := DetachSymbols(symbolsFailing, log);
      }
      if !ok {
        if !segmentsOk {
          var x :| x in netSegments && x in segmentsFailing;
          assert x in s0.segments.list;
        } else {
          var x :| x in symbols && x in symbolsFailing;
          assert x in s0.symbols.list;
        }
        assert RemoveFromProjectStep(s0, symbolsFailing, segmentsFailing) == (Failed(CollaboratorError), s0);
        Unwind(log);
        return Failed(CollaboratorError);
      }
      addedToProject := false;
      assert State().symbols.attached == {} && State().segments.attached == {};
      r := Done;
    }

    /** The body of the loading constructor, run on a newly constructed empty
        schematic with the name and the items built from the file: the name must
        not be empty (getValueByPath with its non-empty flag, a runtime error), then
        the symbols and the net segments are appended with a duplicate-UUID check
        each (a runtime error). A failure leaves the schematic empty. The closing
        attribute check cannot fail once the name was read. */
    method Load(loadedName: string, syms: seq<Symbol>, segs: seq<NetSegment>) returns (r: Outcome)
      requires !addedToProject && symbols == [] && netSegments == []
      requires symbolsAttached == {} && segmentsAttached == {}
      requires forall x :: x in syms ==> x.schematic == this
      requires forall x :: x in segs ==> x.schematic == this
      modifies this
      ensures !addedToProject
      ensures r.Done? <==> (loadedName != [] && DistinctUuids(SymbolUuid, syms) && DistinctUuids(SegmentUuid, segs))
      ensures r.Done? ==> Valid() && name == loadedName && symbols == syms && netSegments == segs
      ensures r.Failed? ==> r.error == RuntimeError && symbols == [] && netSegments == []
    {
      if loadedName == [] {
        return Failed(RuntimeError);
      }
      name := loadedName;
      for i := 0 to |syms|
        invariant symbols == syms[..i] && DistinctUuids(SymbolUuid, symbols)
        invariant netSegments == [] && symbolsAttached == {} && segmentsAttached == {} && !addedToProject
        invariant name == loadedName
      {
        var found := GetSymbolByUuid(syms[i].uuid);
        if found.Some? {
          symbols := [];
          return Failed(RuntimeError);
        }
        symbols := symbols + [syms[i]];
        assert syms[..i + 1] == symbols;
      }
      assert syms[..|syms|] == syms;
      for i := 0 to |segs|
        invariant symbols == syms && DistinctUuids(SymbolUuid, syms)
        invariant netSegments == segs[..i] && DistinctUuids(SegmentUuid, netSegments)
        invariant symbolsAttached == {} && segmentsAttached == {} && !addedToProject
        invariant name == loadedName
      {
        var found := GetNetSegmentByUuid(segs[i].uuid);
        if found.Some? {
          symbols, netSegments := [], [];
          return Failed(RuntimeError);
        }
        netSegments := netSegments + [segs[i]];
        assert segs[..i + 1] == netSegments;
      }
      assert segs[..|segs|] == segs;
      assert CheckAttributesValidity();
      DistinctUuidsNoDup(SymbolUuid, symbols);
      DistinctUuidsNoDup(SegmentUuid, netSegments);
      r := Done;
    }
  }
}
