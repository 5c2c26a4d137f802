/** SerializableKeyValueMap: an ordered string-to-string map keyed by locale, with
    the empty key holding the default entry. LocalizedNameMap, LocalizedDescriptionMap
    and LocalizedKeywordsMap are this map with the tags below. */
module KeyValueMaps {
  import opened Results
  import opened Seqs
  import opened Strings
  import opened SExpressions

  const NameTag: string := "name"
  const DescriptionTag: string := "description"
  const KeywordsTag: string := "keywords"
  /** The name of the child list that carries an entry's key. */
  const KeyName: string := "locale"

  /** The key and value one child list of the file stands for: with more than one
      child, the key is the text of its `locale` list and the value its second child;
      otherwise the key is the default key and the value its only child. */
  function EntryOf(children: seq<SExpr>): (r: Result<(string, string)>)
    ensures r.Err? ==> r.error == RuntimeError
    ensures |children| == 0 ==> r.Err?
    ensures |children| == 1 ==> (r.Ok? <==> !children[0].List?)
    ensures |children| == 1 && r.Ok? ==> r.value == ("", children[0].text)
    ensures |children| > 1 && r.Ok? ==> !children[1].List? && r.value.1 == children[1].text
    ensures |children| > 1 && r.Ok? ==> exists e :: e in children && e.List? && e.name == KeyName
  {
    if |children| > 1 then
      match ValueNamed(children, KeyName)
      case Err(_) => Err(RuntimeError)
      case Ok(key) =>
        match LeafText(children[1])
        case Err(_) => Err(RuntimeError)
        case Ok(value) => Ok((key, value))
    else if |children| == 1 then
      match LeafText(children[0])
      case Err(_) => Err(RuntimeError)
      case Ok(value) => Ok(("", value))
    else Err(RuntimeError)
  }

  /** The loading loop over the tagged children, from the map `acc`: whether it got
      through without error, and the map it reached (where it stopped on an error). */
  function Fill(acc: map<string, string>, items: seq<SExpr>): (res: (bool, map<string, string>))
    ensures acc.Keys <= res.1.Keys
    ensures forall k :: k in acc ==> res.1[k] == acc[k]
    decreases |items|
  {
    if items == [] then (true, acc)
    else if !items[0].List? then (false, acc)
    else
      match EntryOf(items[0].children)
      case Err(_) => (false, acc)
      case Ok(entry) =>
        if entry.0 in acc then (false, acc)
        else Fill(acc[entry.0 := entry.1], items[1..])
  }

  /** loadFromDomElement as a function of the node's children. */
  function Loaded(tag: string, children: seq<SExpr>): (r: Result<map<string, string>>)
    ensures r.Err? ==> r.error == RuntimeError
    ensures r.Ok? ==> "" in r.value
    ensures r.Ok? <==> Fill(map[], ChildrenNamed(children, tag)).0 && "" in Fill(map[], ChildrenNamed(children, tag)).1
  {
    var (ok, m) := Fill(map[], ChildrenNamed(children, tag));
    if !ok then Err(RuntimeError)
    else if "" !in m then Err(RuntimeError)
    else Ok(m)
  }

  /** One step of the loading loop: an entry whose key is new is added, and the
      loop goes on with the next child. */
  lemma FillStep(acc: map<string, string>, items: seq<SExpr>)
    requires items != [] && items[0].List? && EntryOf(items[0].children).Ok?
    requires EntryOf(items[0].children).value.0 !in acc
    ensures var (k, v) := EntryOf(items[0].children).value;
      Fill(acc, items) == Fill(acc[k := v], items[1..])
  {
  }

  /** Two tagged children with the same key make loading fail. */
  lemma {:induction false} DuplicateKeyRejected(acc: map<string, string>, items: seq<SExpr>, i: nat, j: nat)
    requires i < j < |items|
    requires forall n :: 0 <= n < |items| ==> items[n].List? && EntryOf(items[n].children).Ok?
    requires EntryOf(items[i].children).value.0 == EntryOf(items[j].children).value.0
    ensures !Fill(acc, items).0
    decreases |items|
  {
    var (k, v) := EntryOf(items[0].children).value;
    if k !in acc {
      FillStep(acc, items);
      assert items[1..][j - 1] == items[j];
      if i == 0 {
        KeyInFillRejected(acc[k := v], items[1..], j - 1);
      } else {
        assert items[1..][i - 1] == items[i];
        DuplicateKeyRejected(acc[k := v], items[1..], i - 1, j - 1);
      }
    }
  }

  lemma {:induction false} KeyInFillRejected(acc: map<string, string>, items: seq<SExpr>, j: nat)
    requires j < |items|
    requires forall n :: 0 <= n < |items| ==> items[n].List? && EntryOf(items[n].children).Ok?
    requires EntryOf(items[j].children).value.0 in acc
    ensures !Fill(acc, items).0
    decreases |items|
  {
    var (k, v) := EntryOf(items[0].children).value;
    if j > 0 && k !in acc {
      FillStep(acc, items);
      assert items[1..][j - 1] == items[j];
      KeyInFillRejected(acc[k := v], items[1..], j - 1);
    }
  }

  /** The child list serialize writes for one entry: the locale is left out exactly
      for the default key. */
  function EntryNode(tag: string, key: string, value: string): (e: SExpr)
    ensures e.List? && e.name == tag
    ensures key == "" <==> |e.children| == 1
    ensures EntryOf(e.children) == Ok((key, value))
  {
    var e := if key == "" then List(tag, [Str(value)]) else List(tag, [List(KeyName, [Str(key)]), Str(value)]);
    assert key != "" ==> ChildrenNamed(e.children, KeyName)[0] == List(KeyName, [Str(key)]);
    e
  }

  /** One child per key of `keys`, in that order. */
  function Entries(tag: string, keys: seq<string>, m: map<string, string>): (r: seq<SExpr>)
    requires forall k :: k in keys ==> k in m
    ensures |r| == |keys|
    ensures forall i :: 0 <= i < |r| ==> r[i] == EntryNode(tag, keys[i], m[keys[i]])
  {
    if keys == [] then [] else [EntryNode(tag, keys[0], m[keys[0]])] + Entries(tag, keys[1..], m)
  }

  lemma {:induction false} EntriesNamed(tag: string, keys: seq<string>, m: map<string, string>)
    requires forall k :: k in keys ==> k in m
    ensures ChildrenNamed(Entries(tag, keys, m), tag) == Entries(tag, keys, m)
  {
    if keys != [] {
      EntriesNamed(tag, keys[1..], m);
      assert Entries(tag, keys, m)[1..] == Entries(tag, keys[1..], m);
    }
  }

  /** Loading the entries of distinct keys not yet in `acc` adds exactly those keys
      with their values. */
  lemma {:induction false} FillEntries(tag: string, keys: seq<string>, m: map<string, string>, acc: map<string, string>)
    requires forall k :: k in keys ==> k in m
    requires NoDup(keys)
    requires forall k :: k in keys ==> k !in acc
    ensures Fill(acc, Entries(tag, keys, m)).0
    ensures forall k :: k in Fill(acc, Entries(tag, keys, m)).1 <==> k in acc || k in keys
    ensures forall k :: k in keys ==> Fill(acc, Entries(tag, keys, m)).1[k] == m[k]
  {
    if keys != [] {
      var k0, rest := keys[0], keys[1..];
      var acc' := acc[k0 := m[k0]];
      var es := Entries(tag, keys, m);
      assert es[1..] == Entries(tag, rest, m);
      assert EntryOf(es[0].children) == Ok((k0, m[k0])) by {
        assert es[0] == EntryNode(tag, k0, m[k0]);
      }
      assert Fill(acc, es) == Fill(acc', Entries(tag, rest, m));
      assert NoDup(rest) by {
        forall i, j | 0 <= i < j < |rest| ensures rest[i] != rest[j] {
          assert rest[i] == keys[i + 1] && rest[j] == keys[j + 1];
        }
      }
      assert k0 !in rest by {
        forall n | 0 <= n < |rest| ensures rest[n] != k0 {
          assert rest[n] == keys[n + 1];
        }
      }
      assert forall k :: k in keys <==> k == k0 || k in rest;
      FillEntries(tag, rest, m, acc');
      var f := Fill(acc', Entries(tag, rest, m)).1;
      assert f[k0] == m[k0];
      forall k | k in keys ensures f[k] == m[k] {
        if k != k0 { assert k in rest; }
      }
    }
  }

  /** Loading the serialized entries of a map, default key or not, gives back the map. */
  lemma FillSerialized(tag: string, m: map<string, string>)
    ensures Fill(map[], Entries(tag, SortedKeys(m.Keys), m)) == (true, m)
  {
    var keys := SortedKeys(m.Keys);
    assert forall k :: k in keys <==> k in m;
    StrictlySortedNoDup(keys);
    FillEntries(tag, keys, m, map[]);
    var f := Fill(map[], Entries(tag, keys, m));
    assert f.1.Keys == m.Keys;
    assert f.1 == m;
  }

  lemma LoadEntries(tag: string, others: seq<SExpr>, m: map<string, string>)
    requires ChildrenNamed(others, tag) == []
    ensures Loaded(tag, others + Entries(tag, SortedKeys(m.Keys), m)) == if "" in m then Ok(m) else Err(RuntimeError)
  {
    var es := Entries(tag, SortedKeys(m.Keys), m);
    ChildrenNamedAppend(others, es, tag);
    EntriesNamed(tag, SortedKeys(m.Keys), m);
    assert ChildrenNamed(others + es, tag) == es;
    FillSerialized(tag, m);
  }

  class KeyValueMap {
    /** The tag of the entries (name, description or keywords). */
    const tagname: string
    var values: map<string, string>

    constructor (tagname: string)
      ensures this.tagname == tagname && values == map[]
    {
      this.tagname := tagname;
      values := map[];
    }

    /** getDefaultValue: the value of the default key, or the empty string when there is none. */
    function DefaultValue(): (v: string)
      reads this
      ensures "" in values ==> v == values[""]
      ensures "" !in values ==> v == ""
    {
      if "" in values then values[""] else ""
    }

    /** value(keyOrder): the value of the first key of `keyOrder` the map holds, and
        that key; the default value and the default key when it holds none of them. */
    function Value(keyOrder: seq<string>): (r: (string, string))
      reads this
      ensures (forall k :: k in keyOrder ==> k !in values) ==> r == (DefaultValue(), "")
      ensures (exists k :: k in keyOrder && k in values) ==>
        (exists i :: 0 <= i < |keyOrder| && keyOrder[i] == r.1
          && (forall j :: 0 <= j < i ==> keyOrder[j] !in values))
        && r.1 in values && r.0 == values[r.1]
    {
      if keyOrder == [] then (DefaultValue(), "")
      else if keyOrder[0] in values then (values[keyOrder[0]], keyOrder[0])
      else
        var r := Value(keyOrder[1..]);
        assert forall k :: k in keyOrder[1..] ==> k in keyOrder;
        assert (exists k :: k in keyOrder && k in values) ==> exists k :: k in keyOrder[1..] && k in values;
        assert (exists k :: k in keyOrder[1..] && k in values) ==>
          exists i :: 0 <= i < |keyOrder| && keyOrder[i] == r.1 && (forall j :: 0 <= j < i ==> keyOrder[j] !in values)
          by {
            if exists k :: k in keyOrder[1..] && k in values {
              var i :| 0 <= i < |keyOrder[1..]| && keyOrder[1..][i] == r.1
                && (forall j :: 0 <= j < i ==> keyOrder[1..][j] !in values);
              assert keyOrder[i + 1] == r.1;
              assert forall j :: 0 <= j < i + 1 ==> keyOrder[j] !in values by {
                forall j | 0 <= j < i + 1 ensures keyOrder[j] !in values {
                  if j > 0 { assert keyOrder[j] == keyOrder[1..][j - 1]; }
                }
              }
            }
          }
        r
    }

    /** setDefaultValue: the default value becomes `v`; other keys keep theirs. */
    method SetDefaultValue(v: string)
      modifies this`values
      ensures values == old(values)["" := v]
      ensures DefaultValue() == v
    {
      Insert("", v);
    }

    /** insert: the key gets the value, replacing any it had. */
    method Insert(key: string, value: string)
      modifies this`values
      ensures values == old(values)[key := value]
      ensures Value([key]) == (value, key)
    {
      values := values[key := value];
    }

    /** clear: the map becomes empty. */
    method Clear()
      modifies this`values
      ensures values == map[]
    {
      values := map[];
    }

    /** loadFromDomElement: the previous contents are discarded, then the entries with
        this map's tag are loaded in order; a key twice or no default key is an error.
        On an error the map keeps the entries loaded before it. */
    method LoadFromDomElement(children: seq<SExpr>) returns (r: Outcome)
      modifies this`values
      ensures r.Done? <==> Loaded(tagname, children).Ok?
      ensures r.Done? ==> values == Loaded(tagname, children).value
      ensures r.Failed? ==> r.error == RuntimeError && values == Fill(map[], ChildrenNamed(children, tagname)).1
    {
      values := map[];
      var items := ChildrenNamed(children, tagname);
      var i := 0;
      while i < |items|
        invariant 0 <= i <= |items|
        invariant Fill(map[], items) == Fill(values, items[i..])
      {
        assert items[i..][0] == items[i] && items[i..][1..] == items[i + 1..];
        var entry := EntryOf(items[i].children);
        if entry.Err? {
          assert Fill(values, items[i..]) == (false, values);
          return Failed(RuntimeError);
        }
        if entry.value.0 in values {
          assert Fill(values, items[i..]) == (false, values);
          return Failed(RuntimeError);
        }
        assert Fill(values, items[i..]) == Fill(values[entry.value.0 := entry.value.1], items[i + 1..]);
        values := values[entry.value.0 := entry.value.1];
        i := i + 1;
      }
      assert items[i..] == [];
      assert Fill(map[], items) == (true, values);
      if "" !in values {
        return Failed(RuntimeError);
      }
      r := Done;
    }

    /** serialize: one child per key, in ascending key order, the locale written for
        every key but the default one. */
    function Serialize(): (r: seq<SExpr>)
      reads this
      ensures |r| == |values|
      ensures forall i :: 0 <= i < |r| ==> r[i].List? && r[i].name == tagname
      ensures forall i :: 0 <= i < |r| ==> EntryOf(r[i].children).Ok? && EntryOf(r[i].children).value.0 in values
      ensures forall i :: 0 <= i < |r| ==> (|r[i].children| == 1 <==> EntryOf(r[i].children).value.0 == "")
      ensures forall i :: 0 <= i < |r| ==> EntryOf(r[i].children).value.1 == values[EntryOf(r[i].children).value.0]
      ensures forall i, j :: 0 <= i < j < |r| ==> LexLess(EntryOf(r[i].children).value.0, EntryOf(r[j].children).value.0)
    {
      var keys := SortedKeys(values.Keys);
      Entries(tagname, keys, values)
    }

    /** Loading what serialize wrote, next to children of other names, gives back the
        map when it has a default entry, and fails otherwise. */
    lemma LoadSerialized(others: seq<SExpr>)
      requires ChildrenNamed(others, tagname) == []
      ensures "" in values ==> Loaded(tagname, others + Serialize()) == Ok(values)
      ensures "" !in values ==> Loaded(tagname, others + Serialize()).Err?
    {
      LoadEntries(tagname, others, values);
    }

    /** operator==: the same entries, which is the same as writing the same file text. */
    function Equals(other: KeyValueMap): (b: bool)
      reads this, other
      requires tagname == other.tagname
      ensures b <==> Serialize() == other.Serialize()
    {
      FillSerialized(tagname, values);
      FillSerialized(tagname, other.values);
      values == other.values
    }
  }
}
