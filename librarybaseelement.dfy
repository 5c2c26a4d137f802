/** library::LibraryBaseElement: the part every library element (symbol, package,
    component, ...) shares: a directory holding a marker file with the file format
    version and a main S-expression file, the element's UUID, version, author,
    creation date, deprecation flag and its localized names, descriptions and
    keywords. The file system is modelled as the set of existing paths plus the
    contents of the files this class reads and writes. */
module LibraryElements {
  import opened Results
  import opened Strings
  import opened Uuids
  import opened SExpressions
  import opened KeyValueMaps

  /** A file path as its components, outermost first. */
  type FilePath = seq<string>

  /** getFilename: the last component. */
  function Filename(p: FilePath): string {
    if p == [] then "" else p[|p| - 1]
  }

  /** `p` is `dir` or lies below it. */
  predicate IsUnder(p: FilePath, dir: FilePath) {
    |dir| <= |p| && p[..|dir|] == dir
  }

  /** getPathTo(name): the entry `name` inside `dir`. */
  function PathTo(dir: FilePath, name: string): (p: FilePath)
    ensures Filename(p) == name && IsUnder(p, dir) && p != dir
  {
    assert (dir + [name])[..|dir|] == dir;
    dir + [name]
  }

  /** What distinguishes the kinds of library element: the marker file is
      `.librepcb-<shortName>`, the main file `<longName>.lp`, and whether the
      directory must be named after the UUID. */
  datatype Kind = Kind(shortName: string, longName: string, dirnameMustBeUuid: bool)

  function MarkerFile(dir: FilePath, kind: Kind): FilePath {
    PathTo(dir, ".librepcb-" + kind.shortName)
  }

  function MainFile(dir: FilePath, kind: Kind): FilePath {
    PathTo(dir, kind.longName + ".lp")
  }

  /** The application's side: Version::isValid, the QDateTime parser's acceptance,
      the application version and the file format version it writes. */
  datatype Env = Env(versionValid: string -> bool, dateValid: string -> bool,
                     appVersion: string, fileFormatVersion: string)

  /** The file system as the element sees it: the paths of existing directories and
      files, the parsed main files and the version in each marker file. */
  datatype Disk = Disk(existing: set<FilePath>, documents: map<FilePath, SExpr>, versions: map<FilePath, string>)

  /** Where the element lives: its directory and the two flags about it. */
  datatype Place = Place(directory: FilePath, isTemporary: bool, readOnly: bool)

  /** The serialized attributes of an element; the version and the creation date are
      kept as their texts. */
  datatype ElementData = ElementData(uuid: Uuid, version: string, author: string, created: string,
                                     deprecated: bool, names: map<string, string>,
                                     descriptions: map<string, string>, keywords: map<string, string>)

  /** checkAttributesValidity: a valid version and a non-empty default name. */
  predicate ValidElement(env: Env, d: ElementData) {
    env.versionValid(d.version) && "" in d.names && d.names[""] != ""
  }

  /** The child lists serialize appends after the localized maps. */
  function AttributeNodes(d: ElementData): seq<SExpr> {
    [List("author", [Str(d.author)]), List("version", [Token(d.version)]),
     List("created", [Token(d.created)]), List("deprecated", [Token(BoolToken(d.deprecated))])]
  }

  /** The children serialize writes: the UUID, the names, descriptions and keywords in
      the key-value map format, then author, version, creation date and deprecation. */
  function ElementNodes(d: ElementData): (r: seq<SExpr>)
    ensures r != [] && r[0] == Serialize(d.uuid)
  {
    [Serialize(d.uuid)]
    + Entries(NameTag, SortedKeys(d.names.Keys), d.names)
    + Entries(DescriptionTag, SortedKeys(d.descriptions.Keys), d.descriptions)
    + Entries(KeywordsTag, SortedKeys(d.keywords.Keys), d.keywords)
    + AttributeNodes(d)
  }

  /** serialize: an invalid element is a logic error. */
  function SerializeElement(env: Env, d: ElementData): (r: Result<seq<SExpr>>)
    ensures r.Ok? <==> ValidElement(env, d)
    ensures r.Err? ==> r.error == LogicError
    ensures r.Ok? ==> r.value != [] && Deserialize(r.value[0]) == Ok(d.uuid)
  {
    if !ValidElement(env, d) then Err(LogicError)
    else
      SerializeRoundTrip(d.uuid);
      Ok(ElementNodes(d))
  }

  /** The UUID of the element: the first child when it is a leaf, else (files of an
      older format) the value of the `uuid` child list. */
  function LoadUuid(doc: seq<SExpr>): (r: Result<Uuid>)
    ensures r.Err? ==> r.error == RuntimeError
    ensures doc == [] ==> r.Err?
    ensures doc != [] && !doc[0].List? ==> r == Deserialize(doc[0])
  {
    if doc == [] then Err(RuntimeError)
    else if !doc[0].List? then Deserialize(doc[0])
    else
      match FirstChildNamed(doc, "uuid")
      case Err(e) => Err(e)
      case Ok(e) => Deserialize(e)
  }

  /** Version, author, creation date and deprecation flag, each read by its own
      deserializer; an unreadable or invalid one is a runtime error. */
  function LoadAttributes(env: Env, doc: seq<SExpr>): (r: Result<(string, string, string, bool)>)
    ensures r.Err? ==> r.error == RuntimeError
    ensures r.Ok? ==> ValueNamed(doc, "version") == Ok(r.value.0) && env.versionValid(r.value.0)
    ensures r.Ok? ==> ValueNamed(doc, "author") == Ok(r.value.1)
    ensures r.Ok? ==> ValueNamed(doc, "created") == Ok(r.value.2) && env.dateValid(r.value.2)
    ensures r.Ok? ==> FirstChildNamed(doc, "deprecated").Ok?
                      && DeserializeBool(FirstChildNamed(doc, "deprecated").value) == Ok(r.value.3)
  {
    match ValueNamed(doc, "version")
    case Err(_) => Err(RuntimeError)
    case Ok(version) =>
      if !env.versionValid(version) then Err(RuntimeError)
      else
        match ValueNamed(doc, "author")
        case Err(_) => Err(RuntimeError)
        case Ok(author) =>
          match ValueNamed(doc, "created")
          case Err(_) => Err(RuntimeError)
          case Ok(created) =>
            if !env.dateValid(created) then Err(RuntimeError)
            else
              match FirstChildNamed(doc, "deprecated")
              case Err(e) => Err(e)
              case Ok(depNode) =>
                match DeserializeBool(depNode)
                case Err(e) => Err(e)
                case Ok(deprecated) => Ok((version, author, created, deprecated))
  }

  /** The names, descriptions and keywords, each loaded as a key-value map. */
  function LoadMaps(doc: seq<SExpr>): (r: Result<(map<string, string>, map<string, string>, map<string, string>)>)
    ensures r.Err? ==> r.error == RuntimeError
    ensures r.Ok? <==> Loaded(NameTag, doc).Ok? && Loaded(DescriptionTag, doc).Ok? && Loaded(KeywordsTag, doc).Ok?
    ensures r.Ok? ==> r.value == (Loaded(NameTag, doc).value, Loaded(DescriptionTag, doc).value,
                                  Loaded(KeywordsTag, doc).value)
  {
    match Loaded(NameTag, doc)
    case Err(e) => Err(e)
    case Ok(names) =>
      match Loaded(DescriptionTag, doc)
      case Err(e) => Err(e)
      case Ok(descriptions) =>
        match Loaded(KeywordsTag, doc)
        case Err(e) => Err(e)
        case Ok(keywords) => Ok((names, descriptions, keywords))
  }

  /** The attribute part of the loading constructor: the UUID, the attributes and the
      three maps must all load. */
  function LoadElementData(env: Env, doc: seq<SExpr>): (r: Result<ElementData>)
    ensures r.Err? ==> r.error == RuntimeError
    ensures r.Ok? <==> LoadUuid(doc).Ok? && LoadAttributes(env, doc).Ok? && LoadMaps(doc).Ok?
    ensures r.Ok? ==> LoadUuid(doc) == Ok(r.value.uuid)
    ensures r.Ok? ==> LoadAttributes(env, doc) == Ok((r.value.version, r.value.author, r.value.created, r.value.deprecated))
    ensures r.Ok? ==> LoadMaps(doc) == Ok((r.value.names, r.value.descriptions, r.value.keywords))
  {
    match LoadUuid(doc)
    case Err(e) => Err(e)
    case Ok(uuid) =>
      match LoadAttributes(env, doc)
      case Err(e) => Err(e)
      case Ok(attrs) =>
        match LoadMaps(doc)
        case Err(e) => Err(e)
        case Ok(maps) =>
          Ok(ElementData(uuid, attrs.0, attrs.1, attrs.2, attrs.3, maps.0, maps.1, maps.2))
  }

  /** The children of a parsed main file. */
  function DocChildren(root: SExpr): seq<SExpr> {
    if root.List? then root.children else []
  }

  /** The loading constructor: the marker file must exist, the directory name must be
      a UUID when that is required, the marker's version must be the application's,
      the main file must load, and its UUID must be the directory name when required. */
  function LoadElement(kind: Kind, env: Env, disk: Disk, dir: FilePath): (r: Result<ElementData>)
    ensures r.Err? ==> r.error == RuntimeError
    ensures MarkerFile(dir, kind) !in disk.existing ==> r.Err?
    ensures kind.dirnameMustBeUuid && !IsValidUuidText(Filename(dir)) ==> r.Err?
    ensures MarkerFile(dir, kind) in disk.versions && disk.versions[MarkerFile(dir, kind)] != env.appVersion ==> r.Err?
    ensures r.Ok? && kind.dirnameMustBeUuid ==> ToStr(r.value.uuid) == Filename(dir)
    ensures r.Ok? ==> MainFile(dir, kind) in disk.documents
                      && LoadElementData(env, DocChildren(disk.documents[MainFile(dir, kind)])) == r
  {
    var marker := MarkerFile(dir, kind);
    var main := MainFile(dir, kind);
    if marker !in disk.existing then Err(RuntimeError)
    else if kind.dirnameMustBeUuid && !IsValidUuidText(Filename(dir)) then Err(RuntimeError)
    else if marker !in disk.versions || disk.versions[marker] != env.appVersion then Err(RuntimeError)
    else if main !in disk.documents then Err(RuntimeError)
    else
      match LoadElementData(env, DocChildren(disk.documents[main]))
      case Err(e) => Err(e)
      case Ok(d) =>
        if kind.dirnameMustBeUuid && ToStr(d.uuid) != Filename(dir) then Err(RuntimeError) else Ok(d)
  }

  /** The file system after writing the element into `dir`: the main file holds the
      root list `librepcb_<longName>` with the serialized children, the marker file
      the file format version. */
  function WithElementFiles(kind: Kind, env: Env, d: ElementData, dir: FilePath, disk: Disk): (r: Disk)
    ensures disk.existing <= r.existing
    ensures MarkerFile(dir, kind) in r.existing && MainFile(dir, kind) in r.existing
  {
    Disk(disk.existing + {MainFile(dir, kind), MarkerFile(dir, kind)},
         disk.documents[MainFile(dir, kind) := List("librepcb_" + kind.longName, ElementNodes(d))],
         disk.versions[MarkerFile(dir, kind) := env.fileFormatVersion])
  }

  /** save: an element opened read-only is a runtime error and an invalid one a logic
      error, both before anything is written. */
  function SaveStep(kind: Kind, env: Env, d: ElementData, p: Place, disk: Disk): (r: (Outcome, Disk))
    ensures r.0.Done? <==> !p.readOnly && ValidElement(env, d)
    ensures r.0.Failed? ==> r.1 == disk
    ensures r.0.Failed? ==> (r.0.error == RuntimeError <==> p.readOnly)
    ensures r.0.Failed? && !p.readOnly ==> r.0.error == LogicError
    ensures r.0.Done? ==> r.1 == WithElementFiles(kind, env, d, p.directory, disk)
  {
    if p.readOnly then (Failed(RuntimeError), disk)
    else
      match SerializeElement(env, d)
      case Err(e) => (Failed(e), disk)
      case Ok(_) => (Done, WithElementFiles(kind, env, d, p.directory, disk))
  }

  /** FileUtils::removeDirRecursively: every path at or below `dir` is gone. */
  function Removed(disk: Disk, dir: FilePath): (r: Disk)
    ensures forall q :: q in r.existing <==> q in disk.existing && !IsUnder(q, dir)
    ensures forall q :: q in r.documents <==> q in disk.documents && !IsUnder(q, dir)
    ensures forall q :: q in r.documents ==> r.documents[q] == disk.documents[q]
    ensures forall q :: q in r.versions <==> q in disk.versions && !IsUnder(q, dir)
    ensures forall q :: q in r.versions ==> r.versions[q] == disk.versions[q]
  {
    Disk(set q | q in disk.existing && !IsUnder(q, dir),
         map q | q in disk.documents && !IsUnder(q, dir) :: disk.documents[q],
         map q | q in disk.versions && !IsUnder(q, dir) :: disk.versions[q])
  }

  /** copyTo: to the current directory it only saves. Elsewhere the destination must
      be named after the UUID (when required) and must not exist; then the directory
      is copied, the element moves there as neither temporary nor read-only and is
      saved, and the source directory is removed when asked for after a successful
      save. */
  function CopyStep(kind: Kind, env: Env, d: ElementData, p: Place, disk: Disk,
                    destination: FilePath, removeSource: bool): (r: (Outcome, Place, Disk))
    ensures r.1 == p || r.1 == Place(destination, false, false)
    ensures r.0.Done? ==> r.1.directory == destination
  {
    if destination == p.directory then
      var s := SaveStep(kind, env, d, p, disk);
      (s.0, p, s.1)
    else if kind.dirnameMustBeUuid && Filename(destination) != ToStr(d.uuid) then (Failed(RuntimeError), p, disk)
    else if destination in disk.existing then (Failed(RuntimeError), p, disk)
    else
      var copied := disk.(existing := disk.existing + {destination});
      var moved := Place(destination, false, false);
      var s := SaveStep(kind, env, d, moved, copied);
      if s.0.Failed? then (s.0, moved, s.1)
      else if removeSource then (Done, moved, Removed(s.1, p.directory))
      else (Done, moved, s.1)
  }

  /** The guards and the state changes of copyTo. */
  lemma CopyStepProperties(kind: Kind, env: Env, d: ElementData, p: Place, disk: Disk,
                           destination: FilePath, removeSource: bool, r: (Outcome, Place, Disk))
    requires r == CopyStep(kind, env, d, p, disk, destination, removeSource)
    ensures destination == p.directory ==> r == (SaveStep(kind, env, d, p, disk).0, p, SaveStep(kind, env, d, p, disk).1)
    ensures destination != p.directory && kind.dirnameMustBeUuid && Filename(destination) != ToStr(d.uuid)
            ==> r == (Failed(RuntimeError), p, disk)
    ensures destination != p.directory && destination in disk.existing ==> r == (Failed(RuntimeError), p, disk)
    ensures destination != p.directory && r.0.Done? ==> r.1 == Place(destination, false, false)
    ensures destination != p.directory ==>
              (r.0.Done? <==> ValidElement(env, d) && destination !in disk.existing
                              && !(kind.dirnameMustBeUuid && Filename(destination) != ToStr(d.uuid)))
    ensures r.0.Failed? && r.1 != p ==> r.0.error == LogicError && r.1 == Place(destination, false, false)
    ensures r.0.Done? && destination != p.directory && removeSource ==>
              forall q :: q in r.2.existing ==> !IsUnder(q, p.directory)
  {
  }

  /** Entries of one tag have no children of any other name. */
  lemma EntriesNotNamed(tag: string, keys: seq<string>, m: map<string, string>, name: string)
    requires forall k :: k in keys ==> k in m
    requires tag != name
    ensures ChildrenNamed(Entries(tag, keys, m), name) == []
  {
    NoneNamed(Entries(tag, keys, m), name);
  }

  /** The children with a given name in what serialize writes, part by part. */
  lemma {:induction false} ElementNodesNamed(d: ElementData, name: string)
    ensures ChildrenNamed(ElementNodes(d), name) ==
      ChildrenNamed(Entries(NameTag, SortedKeys(d.names.Keys), d.names), name)
      + ChildrenNamed(Entries(DescriptionTag, SortedKeys(d.descriptions.Keys), d.descriptions), name)
      + ChildrenNamed(Entries(KeywordsTag, SortedKeys(d.keywords.Keys), d.keywords), name)
      + ChildrenNamed(AttributeNodes(d), name)
  {
    var u := [Serialize(d.uuid)];
    var n := Entries(NameTag, SortedKeys(d.names.Keys), d.names);
    var ds := Entries(DescriptionTag, SortedKeys(d.descriptions.Keys), d.descriptions);
    var k := Entries(KeywordsTag, SortedKeys(d.keywords.Keys), d.keywords);
    var a := AttributeNodes(d);
    ChildrenNamedAppend(u + n + ds + k, a, name);
    ChildrenNamedAppend(u + n + ds, k, name);
    ChildrenNamedAppend(u + n, ds, name);
    ChildrenNamedAppend(u, n, name);
    NoneNamed(u, name);
  }

  /** Loading a map only looks at the children with its tag. */
  lemma LoadedSameNamed(tag: string, a: seq<SExpr>, b: seq<SExpr>)
    requires ChildrenNamed(a, tag) == ChildrenNamed(b, tag)
    ensures Loaded(tag, a) == Loaded(tag, b)
  {
  }

  /** None of the attribute lists carries the tag of a localized map. */
  lemma AttributesNotNamedMapTag(d: ElementData, tag: string)
    requires tag == NameTag || tag == DescriptionTag || tag == KeywordsTag
    ensures ChildrenNamed(AttributeNodes(d), tag) == []
  {
    var a := AttributeNodes(d);
    assert "deprecated"[2] != DescriptionTag[2];
    forall j | 0 <= j < |a| ensures !(a[j].List? && a[j].name == tag) {
      assert a[j].name[0] in {'a', 'v', 'c', 'd'};
      assert tag[0] in {'n', 'd', 'k'};
      if a[j].name[0] == 'd' && tag[0] == 'd' {
        assert a[j].name[2] != tag[2];
      }
    }
    NoneNamed(a, tag);
  }

  /** Of the entries of three distinct tags, only those of the first carry it. */
  lemma OnlyFirstPart(t1: string, m1: map<string, string>, t2: string, m2: map<string, string>,
                      t3: string, m3: map<string, string>)
    requires t1 != t2 && t1 != t3
    ensures ChildrenNamed(Entries(t1, SortedKeys(m1.Keys), m1), t1) == Entries(t1, SortedKeys(m1.Keys), m1)
    ensures ChildrenNamed(Entries(t2, SortedKeys(m2.Keys), m2), t1) == []
    ensures ChildrenNamed(Entries(t3, SortedKeys(m3.Keys), m3), t1) == []
  {
    EntriesNamed(t1, SortedKeys(m1.Keys), m1);
    EntriesNotNamed(t2, SortedKeys(m2.Keys), m2, t1);
    EntriesNotNamed(t3, SortedKeys(m3.Keys), m3, t1);
  }

  /** Loading a map's own entries gives it back when it has a default entry. */
  lemma LoadedEntries(tag: string, m: map<string, string>)
    ensures Loaded(tag, Entries(tag, SortedKeys(m.Keys), m)) == if "" in m then Ok(m) else Err(RuntimeError)
  {
    var es := Entries(tag, SortedKeys(m.Keys), m);
    LoadEntries(tag, [], m);
    assert [] + es == es;
  }

  /** An attribute value is read back from what serialize wrote. */
  lemma AttributeOfElement(d: ElementData, i: nat, name: string)
    requires i < 4 && name == ["author", "version", "created", "deprecated"][i]
    ensures ChildrenNamed(ElementNodes(d), name) == [AttributeNodes(d)[i]]
    ensures FirstChildNamed(ElementNodes(d), name) == Ok(AttributeNodes(d)[i].children[0])
  {
    var a := AttributeNodes(d);
    assert "author"[0] != "version"[0] && "author"[0] != "created"[0] && "author"[0] != "deprecated"[0];
    assert "version"[0] != "created"[0] && "version"[0] != "deprecated"[0] && "created"[0] != "deprecated"[0];
    assert name[0] != NameTag[0] && name[0] != KeywordsTag[0];
    assert name != DescriptionTag by {
      if i == 3 { assert name[2] != DescriptionTag[2]; } else { assert name[0] != DescriptionTag[0]; }
    }
    ValueNamedUnique(a, i, name);
    NotAMapTag(d, name);
    FirstChildSameNamed(ElementNodes(d), a, name);
  }

  /** A name that is none of the map tags is found only among the attribute lists. */
  lemma NotAMapTag(d: ElementData, name: string)
    requires name != NameTag && name != DescriptionTag && name != KeywordsTag
    ensures ChildrenNamed(ElementNodes(d), name) == ChildrenNamed(AttributeNodes(d), name)
  {
    ElementNodesNamed(d, name);
    EntriesNotNamed(NameTag, SortedKeys(d.names.Keys), d.names, name);
    EntriesNotNamed(DescriptionTag, SortedKeys(d.descriptions.Keys), d.descriptions, name);
    EntriesNotNamed(KeywordsTag, SortedKeys(d.keywords.Keys), d.keywords, name);
    var c := ChildrenNamed(AttributeNodes(d), name);
    assert [] + [] + [] + c == c;
  }

  /** getValueByPath only looks at the children with that name. */
  lemma FirstChildSameNamed(a: seq<SExpr>, b: seq<SExpr>, name: string)
    requires ChildrenNamed(a, name) == ChildrenNamed(b, name)
    ensures FirstChildNamed(a, name) == FirstChildNamed(b, name)
  {
  }

  /** Loading the children serialize wrote gives the element back, provided each of
      the three maps holds a default entry (the loader requires one in each). */
  lemma LoadSerializedElement(env: Env, d: ElementData)
    requires ValidElement(env, d) && env.dateValid(d.created)
    ensures LoadElementData(env, SerializeElement(env, d).value) ==
      if "" in d.descriptions && "" in d.keywords then Ok(d) else Err(RuntimeError)
  {
    AttributesOfElement(d);
    MapsOfElement(d);
    LoadElementDataOf(env, ElementNodes(d), d);
  }

  /** Each attribute list occurs once in what serialize writes. */
  lemma AttributesOfElement(d: ElementData)
    ensures ChildrenNamed(ElementNodes(d), "author") == [AttributeNodes(d)[0]]
    ensures ChildrenNamed(ElementNodes(d), "version") == [AttributeNodes(d)[1]]
    ensures ChildrenNamed(ElementNodes(d), "created") == [AttributeNodes(d)[2]]
    ensures ChildrenNamed(ElementNodes(d), "deprecated") == [AttributeNodes(d)[3]]
  {
    AuthorVersionOfElement(d);
    CreatedDeprecatedOfElement(d);
  }

  lemma AuthorVersionOfElement(d: ElementData)
    ensures ChildrenNamed(ElementNodes(d), "author") == [AttributeNodes(d)[0]]
    ensures ChildrenNamed(ElementNodes(d), "version") == [AttributeNodes(d)[1]]
  {
    AttributeOfElement(d, 0, "author");
    AttributeOfElement(d, 1, "version");
  }

  lemma CreatedDeprecatedOfElement(d: ElementData)
    ensures ChildrenNamed(ElementNodes(d), "created") == [AttributeNodes(d)[2]]
    ensures ChildrenNamed(ElementNodes(d), "deprecated") == [AttributeNodes(d)[3]]
  {
    AttributeOfElement(d, 2, "created");
    AttributeOfElement(d, 3, "deprecated");
  }

  /** The entries of each map are the children with its tag in what serialize writes. */
  lemma MapsOfElement(d: ElementData)
    ensures ChildrenNamed(ElementNodes(d), NameTag) == Entries(NameTag, SortedKeys(d.names.Keys), d.names)
    ensures ChildrenNamed(ElementNodes(d), DescriptionTag)
            == Entries(DescriptionTag, SortedKeys(d.descriptions.Keys), d.descriptions)
    ensures ChildrenNamed(ElementNodes(d), KeywordsTag) == Entries(KeywordsTag, SortedKeys(d.keywords.Keys), d.keywords)
  {
    NamesOfElement(d);
    DescriptionsOfElement(d);
    KeywordsOfElement(d);
  }

  lemma NamesOfElement(d: ElementData)
    ensures ChildrenNamed(ElementNodes(d), NameTag) == Entries(NameTag, SortedKeys(d.names.Keys), d.names)
  {
    assert NameTag[0] != DescriptionTag[0] && NameTag[0] != KeywordsTag[0];
    ElementNodesNamed(d, NameTag);
    AttributesNotNamedMapTag(d, NameTag);
    OnlyFirstPart(NameTag, d.names, DescriptionTag, d.descriptions, KeywordsTag, d.keywords);
  }

  lemma DescriptionsOfElement(d: ElementData)
    ensures ChildrenNamed(ElementNodes(d), DescriptionTag)
            == Entries(DescriptionTag, SortedKeys(d.descriptions.Keys), d.descriptions)
  {
    assert NameTag[0] != DescriptionTag[0] && DescriptionTag[0] != KeywordsTag[0];
    ElementNodesNamed(d, DescriptionTag);
    AttributesNotNamedMapTag(d, DescriptionTag);
    OnlyFirstPart(DescriptionTag, d.descriptions, NameTag, d.names, KeywordsTag, d.keywords);
  }

  lemma KeywordsOfElement(d: ElementData)
    ensures ChildrenNamed(ElementNodes(d), KeywordsTag) == Entries(KeywordsTag, SortedKeys(d.keywords.Keys), d.keywords)
  {
    assert NameTag[0] != KeywordsTag[0] && DescriptionTag[0] != KeywordsTag[0];
    ElementNodesNamed(d, KeywordsTag);
    AttributesNotNamedMapTag(d, KeywordsTag);
    OnlyFirstPart(KeywordsTag, d.keywords, NameTag, d.names, DescriptionTag, d.descriptions);
  }

  /** The loader's result on a document whose named parts are those serialize writes
      for `d`. */
  lemma LoadElementDataOf(env: Env, doc: seq<SExpr>, d: ElementData)
    requires ValidElement(env, d) && env.dateValid(d.created)
    requires doc != [] && doc[0] == Serialize(d.uuid)
    requires ChildrenNamed(doc, "author") == [AttributeNodes(d)[0]]
    requires ChildrenNamed(doc, "version") == [AttributeNodes(d)[1]]
    requires ChildrenNamed(doc, "created") == [AttributeNodes(d)[2]]
    requires ChildrenNamed(doc, "deprecated") == [AttributeNodes(d)[3]]
    requires ChildrenNamed(doc, NameTag) == Entries(NameTag, SortedKeys(d.names.Keys), d.names)
    requires ChildrenNamed(doc, DescriptionTag) == Entries(DescriptionTag, SortedKeys(d.descriptions.Keys), d.descriptions)
    requires ChildrenNamed(doc, KeywordsTag) == Entries(KeywordsTag, SortedKeys(d.keywords.Keys), d.keywords)
    ensures LoadElementData(env, doc) == if "" in d.descriptions && "" in d.keywords then Ok(d) else Err(RuntimeError)
  {
    assert LoadUuid(doc) == Ok(d.uuid) by { SerializeRoundTrip(d.uuid); }
    LoadAttributesOf(env, doc, d);
    assert Loaded(NameTag, doc) == Ok(d.names) by { LoadedOwnEntries(NameTag, doc, d.names); }
    assert Loaded(DescriptionTag, doc) == if "" in d.descriptions then Ok(d.descriptions) else Err(RuntimeError) by {
      LoadedOwnEntries(DescriptionTag, doc, d.descriptions);
    }
    assert Loaded(KeywordsTag, doc) == if "" in d.keywords then Ok(d.keywords) else Err(RuntimeError) by {
      LoadedOwnEntries(KeywordsTag, doc, d.keywords);
    }
  }

  /** The attributes load from a document whose attribute children are those
      serialize writes for `d`. */
  lemma LoadAttributesOf(env: Env, doc: seq<SExpr>, d: ElementData)
    requires env.versionValid(d.version) && env.dateValid(d.created)
    requires ChildrenNamed(doc, "author") == [AttributeNodes(d)[0]]
    requires ChildrenNamed(doc, "version") == [AttributeNodes(d)[1]]
    requires ChildrenNamed(doc, "created") == [AttributeNodes(d)[2]]
    requires ChildrenNamed(doc, "deprecated") == [AttributeNodes(d)[3]]
    ensures LoadAttributes(env, doc) == Ok((d.version, d.author, d.created, d.deprecated))
  {
    var a := AttributeNodes(d);
    OnlyChildNamed(doc, "version", a[1]);
    OnlyChildNamed(doc, "author", a[0]);
    OnlyChildNamed(doc, "created", a[2]);
    OnlyChildNamed(doc, "deprecated", a[3]);
    BoolRoundTrip(d.deprecated);
  }

  /** A map loads from any document whose children with its tag are its entries. */
  lemma LoadedOwnEntries(tag: string, doc: seq<SExpr>, m: map<string, string>)
    requires ChildrenNamed(doc, tag) == Entries(tag, SortedKeys(m.Keys), m)
    ensures Loaded(tag, doc) == if "" in m then Ok(m) else Err(RuntimeError)
  {
    var es := Entries(tag, SortedKeys(m.Keys), m);
    LoadedEntries(tag, m);
    EntriesNamed(tag, SortedKeys(m.Keys), m);
    LoadedSameNamed(tag, doc, es);
  }

  /** An element copied (or saved in place) successfully opens from its new directory
      as the same element, when the application reads the format it writes, the
      directory name matches a non-null UUID where required, a removed source does
      not overlap the destination, and each map has a default entry. */
  lemma CopiedElementLoads(kind: Kind, env: Env, d: ElementData, p: Place, disk: Disk,
                           destination: FilePath, removeSource: bool)
    requires env.appVersion == env.fileFormatVersion && env.dateValid(d.created)
    requires CopyStep(kind, env, d, p, disk, destination, removeSource).0.Done?
    requires kind.dirnameMustBeUuid ==> !IsNull(d.uuid) && ToStr(d.uuid) == Filename(destination)
    requires removeSource ==> !IsUnder(destination, p.directory) && !IsUnder(p.directory, destination)
    requires "" in d.descriptions && "" in d.keywords
    ensures LoadElement(kind, env, CopyStep(kind, env, d, p, disk, destination, removeSource).2, destination) == Ok(d)
  {
    var r := CopyStep(kind, env, d, p, disk, destination, removeSource);
    var before := if destination == p.directory then disk else disk.(existing := disk.existing + {destination});
    var written := WithElementFiles(kind, env, d, destination, before);
    assert SaveStep(kind, env, d, Place(destination, false, false), before) == (Done, written);
    if removeSource && destination != p.directory {
      assert r.2 == Removed(written, p.directory);
      NestedDirectories(MarkerFile(destination, kind), destination, p.directory);
      NestedDirectories(MainFile(destination, kind), destination, p.directory);
    } else {
      assert r.2 == written;
    }
    LoadWrittenElement(kind, env, d, destination, r.2);
  }

  /** Two directories a path lies below are nested one in the other. */
  lemma NestedDirectories(q: FilePath, dir: FilePath, other: FilePath)
    ensures IsUnder(q, dir) && IsUnder(q, other) ==> IsUnder(dir, other) || IsUnder(other, dir)
  {
    if IsUnder(q, dir) && IsUnder(q, other) {
      if |dir| <= |other| {
        assert other[..|dir|] == q[..|dir|];
      } else {
        assert dir[..|other|] == q[..|other|];
      }
    }
  }

  /** An element whose files were written into `dir` opens from there. */
  lemma LoadWrittenElement(kind: Kind, env: Env, d: ElementData, dir: FilePath, disk: Disk)
    requires ValidElement(env, d) && env.dateValid(d.created) && "" in d.descriptions && "" in d.keywords
    requires kind.dirnameMustBeUuid ==> !IsNull(d.uuid) && ToStr(d.uuid) == Filename(dir)
    requires MarkerFile(dir, kind) in disk.existing && MarkerFile(dir, kind) in disk.versions
    requires disk.versions[MarkerFile(dir, kind)] == env.appVersion
    requires MainFile(dir, kind) in disk.documents
    requires disk.documents[MainFile(dir, kind)] == List("librepcb_" + kind.longName, ElementNodes(d))
    ensures LoadElement(kind, env, disk, dir) == Ok(d)
  {
    LoadSerializedElement(env, d);
  }

  /** saveIntoParentDirectory and moveIntoParentDirectory name the destination after
      the UUID, so only an existing destination or an invalid element can stop them. */
  lemma IntoParentDirectory(kind: Kind, env: Env, d: ElementData, p: Place, disk: Disk,
                            parent: FilePath, removeSource: bool)
    requires PathTo(parent, ToStr(d.uuid)) != p.directory && PathTo(parent, ToStr(d.uuid)) !in disk.existing
    ensures CopyStep(kind, env, d, p, disk, PathTo(parent, ToStr(d.uuid)), removeSource).0.Done? <==> ValidElement(env, d)
  {
  }

  /** The file system the elements are stored on. */
  class FileSystem {
    var existing: set<FilePath>
    var documents: map<FilePath, SExpr>
    var versions: map<FilePath, string>

    function State(): Disk
      reads this
    {
      Disk(existing, documents, versions)
    }

    constructor (disk: Disk)
      ensures State() == disk
    {
      existing := disk.existing;
      documents := disk.documents;
      versions := disk.versions;
    }

    /** FileUtils::copyDirRecursively, as far as modelled: the destination exists. */
    method CopyDirectory(destination: FilePath)
      modifies this
      ensures State() == old(State()).(existing := old(existing) + {destination})
    {
      existing := existing + {destination};
    }

    /** FileUtils::makePath: the directory exists afterwards. */
    method MakePath(dir: FilePath)
      modifies this
      ensures State() == old(State()).(existing := old(existing) + {dir})
    {
      existing := existing + {dir};
    }

    /** FileUtils::removeDirRecursively. */
    method RemoveDirectory(dir: FilePath)
      modifies this
      ensures State() == Removed(old(State()), dir)
    {
      var removed := Removed(State(), dir);
      existing := removed.existing;
      documents := removed.documents;
      versions := removed.versions;
    }
  }

  class LibraryBaseElement {
    const kind: Kind
    const env: Env
    const names: KeyValueMap
    const descriptions: KeyValueMap
    const keywords: KeyValueMap
    var directory: FilePath
    var directoryIsTemporary: bool
    var openedReadOnly: bool
    var uuid: Uuid
    var version: string
    var author: string
    var created: string
    var deprecated: bool

    function Data(): ElementData
      reads this, names, descriptions, keywords
    {
      ElementData(uuid, version, author, created, deprecated, names.values, descriptions.values, keywords.values)
    }

    function Location(): Place
      reads this
    {
      Place(directory, directoryIsTemporary, openedReadOnly)
    }

    /** The member initialisation of the loading constructor: the directory as
        given, not temporary, read-only as asked; the attributes are those read. */
    constructor FromData(kind: Kind, env: Env, d: ElementData, dir: FilePath, readOnly: bool)
      ensures this.kind == kind && this.env == env
      ensures Data() == d && Location() == Place(dir, false, readOnly)
      ensures fresh(names) && fresh(descriptions) && fresh(keywords)
      ensures names.tagname == NameTag && descriptions.tagname == DescriptionTag && keywords.tagname == KeywordsTag
    {
      this.kind := kind;
      this.env := env;
      var n := new KeyValueMap(NameTag);
      n.values := d.names;
      var ds := new KeyValueMap(DescriptionTag);
      ds.values := d.descriptions;
      var k := new KeyValueMap(KeywordsTag);
      k.values := d.keywords;
      names := n;
      descriptions := ds;
      keywords := k;
      directory := dir;
      directoryIsTemporary := false;
      openedReadOnly := readOnly;
      uuid := d.uuid;
      version := d.version;
      author := d.author;
      created := d.created;
      deprecated := d.deprecated;
    }

    /** The constructor for a new element: it lives in a fresh temporary directory
        (`tmp`, FilePath::getRandomTempPath, is a parameter), is not read-only, is not
        deprecated, and its three maps hold only the given default-locale texts. The
        clock's creation date is a parameter. The directory is then created; when
        that fails (`makePathFails`) the constructor throws a runtime error. */
    static method Create(fs: FileSystem, kind: Kind, env: Env, tmp: FilePath, uuid: Uuid, version: string,
                         author: string, created: string, name: string, description: string,
                         keywords: string, makePathFails: bool)
      returns (r: Result<LibraryBaseElement>)
      modifies fs
      ensures r.Err? <==> makePathFails
      ensures r.Err? ==> r.error == RuntimeError && fs.State() == old(fs.State())
      ensures r.Ok? ==> fs.State() == old(fs.State()).(existing := old(fs.existing) + {tmp})
      ensures r.Ok? ==> fresh(r.value) && r.value.kind == kind && r.value.env == env
      ensures r.Ok? ==> r.value.Location() == Place(tmp, true, false)
      ensures r.Ok? ==> r.value.Data() == ElementData(uuid, version, author, created, false, map["" := name],
                                                      map["" := description], map["" := keywords])
    {
      var d := ElementData(uuid, version, author, created, false, map[], map[], map[]);
      var e := new LibraryBaseElement.FromData(kind, env, d, tmp, false);
      e.directoryIsTemporary := true;
      if makePathFails {
        return Err(RuntimeError);
      }
      fs.MakePath(tmp);
      e.names.SetDefaultValue(name);
      e.descriptions.SetDefaultValue(description);
      e.keywords.SetDefaultValue(keywords);
      r := Ok(e);
    }

    /** The loading constructor, which fails with a runtime error. */
    static method Open(fs: FileSystem, kind: Kind, env: Env, dir: FilePath, readOnly: bool)
      returns (r: Result<LibraryBaseElement>)
      ensures r.Ok? <==> LoadElement(kind, env, fs.State(), dir).Ok?
      ensures r.Err? ==> r.error == RuntimeError
      ensures r.Ok? ==> fresh(r.value) && r.value.kind == kind && r.value.env == env
      ensures r.Ok? ==> r.value.Data() == LoadElement(kind, env, fs.State(), dir).value
      ensures r.Ok? ==> r.value.Location() == Place(dir, false, readOnly)
    {
      var loaded := LoadElement(kind, env, fs.State(), dir);
      if loaded.Err? {
        return Err(loaded.error);
      }
      var e := new LibraryBaseElement.FromData(kind, env, loaded.value, dir, readOnly);
      r := Ok(e);
    }

    /** getAllAvailableLocales: every key of the names, descriptions and keywords,
        once each, in ascending order. */
    function AllAvailableLocales(): (r: seq<string>)
      reads this, names, descriptions, keywords
      ensures StrictlySorted(r)
      ensures forall k :: k in r <==> k in names.values || k in descriptions.values || k in keywords.values
      ensures forall i, j :: 0 <= i < j < |r| ==> r[i] != r[j]
    {
      var r := SortedKeys(names.values.Keys + descriptions.values.Keys + keywords.values.Keys);
      StrictlySortedNoDup(r);
      r
    }

    /** checkAttributesValidity: exactly the elements serialize accepts. */
    function CheckAttributesValidity(): (r: bool)
      reads this, names, descriptions, keywords
      ensures r <==> SerializeElement(env, Data()).Ok?
      ensures r ==> "" in names.values && names.values[""] != ""
    {
      env.versionValid(version) && names.DefaultValue() != ""
    }

    method Save(fs: FileSystem) returns (r: Outcome)
      modifies fs
      ensures (r, fs.State()) == SaveStep(kind, env, Data(), Location(), old(fs.State()))
    {
      if openedReadOnly {
        return Failed(RuntimeError);
      }
      if !CheckAttributesValidity() {
        return Failed(LogicError);
      }
      var main := MainFile(directory, kind);
      var marker := MarkerFile(directory, kind);
      fs.documents := fs.documents[main := List("librepcb_" + kind.longName, ElementNodes(Data()))];
      fs.versions := fs.versions[marker := env.fileFormatVersion];
      fs.existing := fs.existing + {main, marker};
      r := Done;
    }

    method CopyTo(destination: FilePath, removeSource: bool, fs: FileSystem) returns (r: Outcome)
      modifies this`directory, this`directoryIsTemporary, this`openedReadOnly, fs
      ensures (r, Location(), fs.State())
              == CopyStep(kind, env, Data(), old(Location()), old(fs.State()), destination, removeSource)
    {
      if destination == directory {
        r := Save(fs);
        return;
      }
      if kind.dirnameMustBeUuid && Filename(destination) != ToStr(uuid) {
        return Failed(RuntimeError);
      }
      if destination in fs.existing {
        return Failed(RuntimeError);
      }
      r := CopyElsewhere(destination, removeSource, fs);
    }

    /** The copying branch of copyTo, once the guards have passed. */
    method CopyElsewhere(destination: FilePath, removeSource: bool, fs: FileSystem) returns (r: Outcome)
      requires destination != directory && destination !in fs.existing
      requires !(kind.dirnameMustBeUuid && Filename(destination) != ToStr(uuid))
      modifies this`directory, this`directoryIsTemporary, this`openedReadOnly, fs
      ensures (r, Location(), fs.State())
              == CopyStep(kind, env, Data(), old(Location()), old(fs.State()), destination, removeSource)
    {
      ghost var d, p, disk := Data(), Location(), fs.State();
      fs.CopyDirectory(destination);
      var sourceDir := directory;
      directory := destination;
      directoryIsTemporary := false;
      openedReadOnly := false;
      r := Save(fs);
      assert Data() == d;
      if r.Failed? {
        return;
      }
      if removeSource {
        fs.RemoveDirectory(sourceDir);
      }
    }

    /** saveTo: a copy that removes the source only if it was temporary. */
    method SaveTo(destination: FilePath, fs: FileSystem) returns (r: Outcome)
      modifies this`directory, this`directoryIsTemporary, this`openedReadOnly, fs
      ensures (r, Location(), fs.State())
              == CopyStep(kind, env, Data(), old(Location()), old(fs.State()), destination, old(directoryIsTemporary))
    {
      r := CopyTo(destination, directoryIsTemporary, fs);
    }

    /** moveTo: a copy that removes the source. */
    method MoveTo(destination: FilePath, fs: FileSystem) returns (r: Outcome)
      modifies this`directory, this`directoryIsTemporary, this`openedReadOnly, fs
      ensures (r, Location(), fs.State())
              == CopyStep(kind, env, Data(), old(Location()), old(fs.State()), destination, true)
    {
      r := CopyTo(destination, true, fs);
    }

    /** saveIntoParentDirectory: saveTo the entry of `parentDir` named after the UUID. */
    method SaveIntoParentDirectory(parentDir: FilePath, fs: FileSystem) returns (r: Outcome)
      modifies this`directory, this`directoryIsTemporary, this`openedReadOnly, fs
      ensures (r, Location(), fs.State())
              == CopyStep(kind, env, Data(), old(Location()), old(fs.State()),
                          PathTo(parentDir, ToStr(uuid)), old(directoryIsTemporary))
    {
      r := SaveTo(PathTo(parentDir, ToStr(uuid)), fs);
    }

    /** moveIntoParentDirectory: moveTo the entry of `parentDir` named after the UUID. */
    method MoveIntoParentDirectory(parentDir: FilePath, fs: FileSystem) returns (r: Outcome)
      modifies this`directory, this`directoryIsTemporary, this`openedReadOnly, fs
      ensures (r, Location(), fs.State())
              == CopyStep(kind, env, Data(), old(Location()), old(fs.State()), PathTo(parentDir, ToStr(uuid)), true)
    {
      r := MoveTo(PathTo(parentDir, ToStr(uuid)), fs);
    }
  }
}
