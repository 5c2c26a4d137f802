/** The S-expression tree the file format is built from. The SExpression class
    itself is not part of this model; these functions state the behaviour the
    modelled code relies on. */
module SExpressions {
  import opened Results

  /** A token (unquoted word), a quoted string, or a named list of children. */
  datatype SExpr = Token(text: string) | Str(text: string) | List(name: string, children: seq<SExpr>)

  /** getStringOrToken: the text of a leaf; a list has none. */
  function LeafText(e: SExpr): (r: Result<string>)
    ensures r.Ok? <==> !e.List?
    ensures r.Ok? ==> r.value == e.text
  {
    match e
    case Token(t) => Ok(t)
    case Str(t) => Ok(t)
    case List(_, _) => Err(RuntimeError)
  }

  /** getChildren(name): the child lists with that name, in document order. */
  function ChildrenNamed(children: seq<SExpr>, name: string): (r: seq<SExpr>)
    ensures forall e :: e in r ==> e.List? && e.name == name
    ensures |r| <= |children|
  {
    if children == [] then []
    else
      var rest := ChildrenNamed(children[1..], name);
      if children[0].List? && children[0].name == name then [children[0]] + rest else rest
  }

  lemma {:induction false} ChildrenNamedAppend(a: seq<SExpr>, b: seq<SExpr>, name: string)
    ensures ChildrenNamed(a + b, name) == ChildrenNamed(a, name) + ChildrenNamed(b, name)
  {
    if a != [] {
      assert (a + b)[1..] == a[1..] + b;
      ChildrenNamedAppend(a[1..], b, name);
    } else {
      assert a + b == b;
    }
  }

  /** getChildByPath(name): the first child list with that name. */
  function ChildNamed(children: seq<SExpr>, name: string): (r: Result<SExpr>)
    ensures r.Ok? <==> ChildrenNamed(children, name) != []
    ensures r.Ok? ==> r.value == ChildrenNamed(children, name)[0]
    ensures r.Err? ==> r.error == RuntimeError
  {
    var found := ChildrenNamed(children, name);
    if found == [] then Err(RuntimeError) else Ok(found[0])
  }

  /** getChildByIndex(i). */
  function ChildAt(e: SExpr, i: nat): (r: Result<SExpr>)
    ensures r.Ok? <==> e.List? && i < |e.children|
  {
    if e.List? && i < |e.children| then Ok(e.children[i]) else Err(RuntimeError)
  }

  /** getValueByPath<QString>(name): the text of the first child of the first child list with that name. */
  function ValueNamed(children: seq<SExpr>, name: string): (r: Result<string>)
    ensures r.Ok? ==> exists e :: e in children && e.List? && e.name == name
  {
    match ChildNamed(children, name)
    case Err(err) => Err(err)
    case Ok(node) =>
      assert node in ChildrenNamed(children, name);
      ChildrenNamedFrom(children, name, node);
      if node.children == [] then Err(RuntimeError) else LeafText(node.children[0])
  }

  lemma {:induction false} ChildrenNamedFrom(children: seq<SExpr>, name: string, e: SExpr)
    requires e in ChildrenNamed(children, name)
    ensures e in children
  {
    if children != [] && e != children[0] {
      ChildrenNamedFrom(children[1..], name, e);
    }
  }

  /** A child list that is the only one with its name gives the value of that name. */
  lemma {:induction false} ValueNamedUnique(children: seq<SExpr>, i: nat, name: string)
    requires i < |children| && children[i].List? && children[i].name == name && children[i].children != []
    requires forall j :: 0 <= j < |children| && j != i ==> !(children[j].List? && children[j].name == name)
    ensures ChildrenNamed(children, name) == [children[i]]
    ensures ValueNamed(children, name) == LeafText(children[i].children[0])
    ensures FirstChildNamed(children, name) == Ok(children[i].children[0])
  {
    if i == 0 {
      NoneNamed(children[1..], name);
    } else {
      ValueNamedUnique(children[1..], i - 1, name);
    }
  }

  lemma {:induction false} NoneNamed(children: seq<SExpr>, name: string)
    requires forall j :: 0 <= j < |children| ==> !(children[j].List? && children[j].name == name)
    ensures ChildrenNamed(children, name) == []
  {
    if children != [] {
      NoneNamed(children[1..], name);
    }
  }

  /** getValue(true): the text of a leaf, which must not be empty. */
  function NonEmptyLeaf(e: SExpr): (r: Result<string>)
    ensures r.Ok? <==> !e.List? && e.text != []
    ensures r.Ok? ==> r.value == e.text
    ensures r.Err? ==> r.error == RuntimeError
  {
    if e.List? || e.text == [] then Err(RuntimeError) else Ok(e.text)
  }

  /** getValueByPath(name, true): the non-empty text of the first child of the first
      child list with that name. */
  function NonEmptyValueNamed(children: seq<SExpr>, name: string): (r: Result<string>)
    ensures r.Ok? <==> ValueNamed(children, name).Ok? && ValueNamed(children, name).value != []
    ensures r.Ok? ==> r.value == ValueNamed(children, name).value
    ensures r.Err? ==> r.error == RuntimeError
  {
    match ValueNamed(children, name)
    case Err(_) => Err(RuntimeError)
    case Ok(s) => if s == [] then Err(RuntimeError) else Ok(s)
  }

  /** getValueByPath<T>(name): the first child of the first child list with that
      name, which T's own deserializer reads. */
  function FirstChildNamed(children: seq<SExpr>, name: string): (r: Result<SExpr>)
    ensures r.Err? ==> r.error == RuntimeError
    ensures ValueNamed(children, name) == if r.Err? then Err(RuntimeError) else LeafText(r.value)
  {
    match ChildNamed(children, name)
    case Err(err) => Err(err)
    case Ok(node) => if node.children == [] then Err(RuntimeError) else Ok(node.children[0])
  }

  /** The only child list with a name gives that name its first child and value. */
  lemma OnlyChildNamed(children: seq<SExpr>, name: string, node: SExpr)
    requires ChildrenNamed(children, name) == [node] && node.List? && node.children != []
    ensures FirstChildNamed(children, name) == Ok(node.children[0])
    ensures ValueNamed(children, name) == LeafText(node.children[0])
  {
  }

  /** serializeToSExpression<bool>: the token a boolean is written as. */
  function BoolToken(b: bool): (t: string)
    ensures t == "true" || t == "false"
  {
    if b then "true" else "false"
  }

  /** deserializeFromSExpression<bool>: `true` or `false`; any other text, or a list,
      is a runtime error. */
  function DeserializeBool(e: SExpr): (r: Result<bool>)
    ensures r.Ok? <==> !e.List? && (e.text == "true" || e.text == "false")
    ensures r.Ok? ==> BoolToken(r.value) == e.text
    ensures r.Err? ==> r.error == RuntimeError
  {
    match LeafText(e)
    case Err(_) => Err(RuntimeError)
    case Ok(str) => if str == "true" then Ok(true) else if str == "false" then Ok(false) else Err(RuntimeError)
  }

  lemma BoolRoundTrip(b: bool)
    ensures DeserializeBool(Token(BoolToken(b))) == Ok(b)
  {
    assert "true"[0] != "false"[0];
  }
}
