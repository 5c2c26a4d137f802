/** Uuid: a replacement for QUuid holding the lowercase RFC 4122 text of a
    version 4 ("DCE" variant) UUID, or the empty text for the NULL UUID. */
module Uuids {
  import opened Results
  import opened Seqs
  import opened Strings
  import opened SExpressions

  predicate IsLowerHex(c: char) { ('0' <= c <= '9') || ('a' <= c <= 'f') }

  predicate IsHyphenPosition(i: int) { i == 8 || i == 13 || i == 18 || i == 23 }

  /** The text of a valid UUID: 8-4-4-4-12 lowercase hex digits, version digit 4
      and variant digit 8, 9, a or b (RFC 4122, sections 3 and 4.4). */
  predicate IsValidUuidText(s: string) {
    |s| == 36
    && (forall i :: 0 <= i < |s| ==> if IsHyphenPosition(i) then s[i] == '-' else IsLowerHex(s[i]))
    && s[14] == '4'
    && (s[19] == '8' || s[19] == '9' || s[19] == 'a' || s[19] == 'b')
  }

  datatype UuidText = UuidText(text: string)

  /** A Uuid object always holds a valid UUID text or is NULL. */
  type Uuid = u: UuidText | u.text == [] || IsValidUuidText(u.text) witness UuidText([])

  /** The default constructor: a NULL UUID. */
  const NullUuid: Uuid := UuidText([])

  predicate IsNull(u: Uuid) { u.text == [] }

  function ToStr(u: Uuid): string { u.text }

  /** setUuid: accepts exactly the valid texts; any other text makes the UUID NULL.
      The first component reports whether the text was accepted. */
  function SetUuid(s: string): (r: (bool, Uuid))
    ensures r.0 <==> IsValidUuidText(s)
    ensures r.0 ==> ToStr(r.1) == s
    ensures !r.0 ==> IsNull(r.1)
  {
    if IsValidUuidText(s) then (true, UuidText(s)) else (false, NullUuid)
  }

  /** The Uuid(QString) constructor. */
  function FromString(s: string): (u: Uuid)
    ensures !IsNull(u) <==> IsValidUuidText(s)
    ensures !IsNull(u) ==> ToStr(u) == s
  {
    SetUuid(s).1
  }

  /** The text of a UUID converts back to the same UUID; no valid text is NULL. */
  lemma StringRoundTrip(u: Uuid)
    ensures FromString(ToStr(u)) == u
  {
  }

  /** operator< compares the texts. */
  predicate Less(a: Uuid, b: Uuid) { LexLess(a.text, b.text) }

  /** operator< on UUIDs is a strict total order. */
  lemma LessIsStrictTotalOrder(a: Uuid, b: Uuid, c: Uuid)
    ensures !Less(a, a)
    ensures Less(a, b) ==> !Less(b, a)
    ensures Less(a, b) && Less(b, c) ==> Less(a, c)
    ensures a == b || Less(a, b) || Less(b, a)
  {
    LexIrreflexive(a.text);
    LexAsymmetric(a.text, b.text);
    if Less(a, b) && Less(b, c) { LexTransitive(a.text, b.text, c.text); }
    LexTotal(a.text, b.text);
  }

  /** serializeToSExpression: a token, "null" for the NULL UUID. */
  function Serialize(u: Uuid): (e: SExpr)
    ensures e.Token?
    ensures IsNull(u) <==> e.text == "null"
  {
    Token(if IsNull(u) then "null" else u.text)
  }

  /** deserializeFromSExpression: the text must be a valid UUID or the word "null". */
  function Deserialize(e: SExpr): (r: Result<Uuid>)
    ensures r.Ok? ==> !e.List? && (IsValidUuidText(e.text) || e.text == "null")
    ensures r.Ok? && !IsNull(r.value) ==> ToStr(r.value) == e.text
    ensures !e.List? && IsValidUuidText(e.text) ==> r.Ok?
    ensures !e.List? && e.text == "null" ==> r == Ok(NullUuid)
    ensures r.Err? ==> r.error == RuntimeError
  {
    match LeafText(e)
    case Err(err) => Err(err)
    case Ok(str) =>
      var u := FromString(str);
      if IsNull(u) && str != "null" then Err(RuntimeError) else Ok(u)
  }

  /** Serialization round-trips every UUID, the NULL UUID included. */
  lemma SerializeRoundTrip(u: Uuid)
    ensures Deserialize(Serialize(u)) == Ok(u)
  {
    if IsNull(u) {
      assert !IsValidUuidText("null");
    }
  }

  /** A text that is neither a valid UUID nor "null" is rejected. */
  lemma DeserializeRejectsInvalid(s: string)
    requires !IsValidUuidText(s) && s != "null"
    ensures Deserialize(Str(s)) == Err(RuntimeError)
    ensures Deserialize(Token(s)) == Err(RuntimeError)
  {
  }

  /** The get*ByUuid searches of the containers: the first listed element whose
      UUID is `u`, or none. */
  method FindByUuid<E>(uuidOf: E -> Uuid, list: seq<E>, u: Uuid) returns (r: Option<E>)
    ensures r.None? <==> forall x :: x in list ==> uuidOf(x) != u
    ensures r.Some? ==> exists i :: 0 <= i < |list| && list[i] == r.value && uuidOf(list[i]) == u
                                    && forall j :: 0 <= j < i ==> uuidOf(list[j]) != u
  {
    for i := 0 to |list|
      invariant forall j :: 0 <= j < i ==> uuidOf(list[j]) != u
    {
      if uuidOf(list[i]) == u {
        return Some(list[i]);
      }
    }
    return None;
  }

  /** No two positions of the list hold elements with the same UUID, as the
      loading constructors check element by element. */
  ghost predicate DistinctUuids<E>(uuidOf: E -> Uuid, list: seq<E>) {
    forall i, j :: 0 <= i < j < |list| ==> uuidOf(list[i]) != uuidOf(list[j])
  }

  /** The loading check of one more element: a prefix with distinct UUIDs stays
      so when the next element's UUID is new to it. */
  lemma DistinctUuidsSnoc<E>(uuidOf: E -> Uuid, list: seq<E>, i: nat)
    requires i < |list| && DistinctUuids(uuidOf, list[..i])
    requires forall x :: x in list[..i] ==> uuidOf(x) != uuidOf(list[i])
    ensures DistinctUuids(uuidOf, list[..i + 1])
  {
    var p, q := list[..i], list[..i + 1];
    forall a, b | 0 <= a < b < |q| ensures uuidOf(q[a]) != uuidOf(q[b]) {
      assert q[a] == p[a] || a == i;
      if b < i { assert q[b] == p[b]; } else { assert q[a] in p; }
    }
  }

  /** An element whose UUID an earlier element has makes the list fail the check. */
  lemma DuplicateUuid<E>(uuidOf: E -> Uuid, list: seq<E>, i: nat, x: E)
    requires i < |list| && x in list[..i] && uuidOf(x) == uuidOf(list[i])
    ensures !DistinctUuids(uuidOf, list)
  {
    var p := list[..i];
    var j :| 0 <= j < i && p[j] == x;
    assert list[j] == x;
  }

  /** Distinct UUIDs make distinct elements, and elements with one UUID equal. */
  lemma DistinctUuidsNoDup<E>(uuidOf: E -> Uuid, list: seq<E>)
    requires DistinctUuids(uuidOf, list)
    ensures NoDup(list)
    ensures forall x, y :: x in list && y in list && uuidOf(x) == uuidOf(y) ==> x == y
  {
    forall x, y | x in list && y in list && uuidOf(x) == uuidOf(y) ensures x == y {
      var i :| 0 <= i < |list| && list[i] == x;
      var j :| 0 <= j < |list| && list[j] == y;
      assert !(i < j) && !(j < i);
    }
  }
}
