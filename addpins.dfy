/** libraryeditor::SymbolEditorState_AddPins: the symbol editor tool that places pins
    one after the other, each named with the next free pin number. */
module SymbolEditorAddPins {
  import opened Results
  import opened Seqs
  import opened Strings
  import opened Geometry

  /** A symbol pin as the tool creates it; its random UUID is not part of this model. */
  datatype Pin = Pin(name: string, position: Point, length: int, rotation: Angle)

  /** The names the symbol's pins have. */
  function PinNames(pins: seq<Pin>): (names: set<string>)
    ensures forall n :: n in names <==> exists i :: 0 <= i < |pins| && pins[i].name == n
  {
    set i | 0 <= i < |pins| :: pins[i].name
  }

  /** The name the tool gives a new pin: the least positive number not yet a pin name. */
  ghost predicate IsNextPinName(pins: seq<Pin>, name: string) {
    exists n: nat :: 1 <= n && name == Decimal(n) && Decimal(n) !in PinNames(pins)
                     && forall k: nat :: 1 <= k < n ==> Decimal(k) in PinNames(pins)
  }

  /** The least free number is unique, so the next pin name is well defined. */
  lemma NextPinNameUnique(pins: seq<Pin>, a: string, b: string)
    requires IsNextPinName(pins, a) && IsNextPinName(pins, b)
    ensures a == b
  {
    var n: nat :| 1 <= n && a == Decimal(n) && Decimal(n) !in PinNames(pins)
                  && forall k: nat :: 1 <= k < n ==> Decimal(k) in PinNames(pins);
    var m: nat :| 1 <= m && b == Decimal(m) && Decimal(m) !in PinNames(pins)
                  && forall k: nat :: 1 <= k < m ==> Decimal(k) in PinNames(pins);
    assert !(n < m) && !(m < n);
  }

  /** Adding a pin with the next name keeps the pin names distinct. */
  lemma NextNameKeepsNamesDistinct(pins: seq<Pin>, pin: Pin)
    requires NoDup(Names(pins)) && IsNextPinName(pins, pin.name)
    ensures NoDup(Names(pins + [pin]))
  {
    assert Names(pins + [pin]) == Names(pins) + [pin.name];
    forall i | 0 <= i < |pins| ensures Names(pins)[i] != pin.name {
      assert pins[i].name in PinNames(pins);
    }
  }

  /** The pin names in list order. */
  function Names(pins: seq<Pin>): (r: seq<string>)
    ensures |r| == |pins| && forall i :: 0 <= i < |pins| ==> r[i] == pins[i].name
  {
    if pins == [] then [] else Names(pins[..|pins| - 1]) + [pins[|pins| - 1].name]
  }

  class AddPinsState {
    /** The pins of the edited symbol. */
    var pins: seq<Pin>
    /** The pin being placed, which the pending edit command changes (mCurrentPin). */
    var current: Option<nat>
    /** The text of the name field in the command toolbar. */
    var nameField: string
    /** The length given to new pins; 2.54 mm at first. */
    var lastLength: int

    ghost predicate Valid()
      reads this
    {
      current.Some? ==> current.value < |pins|
    }

    constructor (pins: seq<Pin>)
      ensures this.pins == pins && current.None? && nameField == "" && lastLength == 2540000
      ensures Valid()
    {
      this.pins := pins;
      current := None;
      nameField := "";
      lastLength := 2540000;
    }

    /** hasPin: some pin of the symbol has this name. */
    function HasPin(name: string): (r: bool)
      reads this
      ensures r <==> name in PinNames(pins)
    {
      exists i :: 0 <= i < |pins| && pins[i].name == name
    }

    /** determineNextPinName: count up from 1 until a number is not a pin name. */
    method DetermineNextPinName() returns (name: string)
      ensures IsNextPinName(pins, name)
      ensures !HasPin(name)
    {
      var i: nat := 1;
      ghost var taken: seq<string> := [];
      while HasPin(Decimal(i))
        invariant 1 <= i && |taken| == i - 1
        invariant forall k :: 0 <= k < |taken| ==> taken[k] == Decimal(k + 1)
        invariant forall k: nat :: 1 <= k < i ==> Decimal(k) in PinNames(pins)
        invariant NoDup(taken) && forall x :: x in taken ==> x in PinNames(pins)
        decreases |PinNames(pins)| + 1 - i
      {
        forall k | 0 <= k < |taken| ensures taken[k] != Decimal(i) {
          DecimalInjective(k + 1, i);
        }
        taken := taken + [Decimal(i)];
        NoDupBounded(taken, PinNames(pins));
        i := i + 1;
      }
      name := Decimal(i);
    }

    /** addNextPin: the name field gets the next free name and a new pin with that
        name, the last length and the given pose is appended and becomes the pin being
        placed. */
    method AddNextPin(pos: Point, rot: Angle)
      modifies this`nameField, this`pins, this`current
      ensures IsNextPinName(old(pins), nameField)
      ensures pins == old(pins) + [Pin(nameField, pos, lastLength, rot)]
      ensures current == Some(|old(pins)|) && Valid()
    {
      nameField := DetermineNextPinName();
      pins := pins + [Pin(nameField, pos, lastLength, rot)];
      current := Some(|pins| - 1);
    }

    /** nameLineEditTextChanged: a text that trims to nothing is ignored, as is any text
        while no pin is being placed; otherwise the pin gets the trimmed text. */
    method NameEdited(text: string)
      requires Valid()
      modifies this`pins
      ensures IsBlank(text) || current.None? ==> pins == old(pins)
      ensures !IsBlank(text) && current.Some? ==> pins == old(pins)[current.value := old(pins)[current.value].(name := Trimmed(text))]
    {
      if current.Some? && Trimmed(text) != [] {
        pins := pins[current.value := pins[current.value].(name := Trimmed(text))];
      }
    }

    /** processGraphicsSceneLeftMouseButtonPressed: the pin being placed is put at the
        cursor and committed, and the next pin starts at the same position with the
        same rotation. */
    method LeftMouseButtonPressed(pos: Point)
      requires Valid() && current.Some?
      modifies this`nameField, this`pins, this`current
      ensures var placed := old(pins)[old(current.value)].(position := pos);
              pins == old(pins)[old(current.value) := placed] + [Pin(nameField, pos, lastLength, placed.rotation)]
      ensures IsNextPinName(old(pins)[old(current.value) := old(pins)[old(current.value)].(position := pos)], nameField)
      ensures current == Some(|pins| - 1) && Valid()
    {
      pins := pins[current.value := pins[current.value].(position := pos)];
      var rot := pins[current.value].rotation;
      current := None;
      AddNextPin(pos, rot);
    }
  }
}
