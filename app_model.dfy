/** The blueprint aggregate as a value: its state, the two validated
    mutations, the document it is persisted as, and the replay that rebuilds
    an aggregate from a document. The class `Builder.AppBuilder` performs
    the same steps in place and is proved against these functions. */
module Apps {
  import opened Wrappers
  import opened Json
  import opened Dicts
  import opened Blocks

  /** The name a loaded app gets when its document has none. */
  const DefaultName: string := "Namnlös app"

  /** A directed, purpose-labelled edge between two block keys. */
  datatype Connection = Connection(source: string, target: string, purpose: string) {
    /** The persisted form: all three fields; reading it back on load gives
        this connection again. */
    function ToDict(): (e: ConnectionEntry)
      ensures e.source.Some? && e.target.Some? && e.purpose.Some?
      ensures ReadConnection(e) == this
    {
      ConnectionEntry(Some(source), Some(target), Some(purpose))
    }
  }

  /** A connection's persisted form; a field is `None` when the document lacks it. */
  datatype ConnectionEntry = ConnectionEntry(
    source: Option<string>,
    target: Option<string>,
    purpose: Option<string>)

  /** How load reads a connection entry: each absent field reads as "". */
  function ReadConnection(e: ConnectionEntry): Connection {
    Connection(e.source.GetOr(""), e.target.GetOr(""), e.purpose.GetOr(""))
  }

  /** The persisted document after JSON parsing; a field is `None` when the
      document lacks it. */
  datatype Document = Document(
    name: Option<string>,
    blocks: Option<seq<BlockEntry>>,
    connections: Option<seq<ConnectionEntry>>)

  datatype BuildError =
    | SchemaNotFound(blockType: string)
    | DuplicateKey(key: string)
    | MissingRequiredFields(blockType: string, fields: seq<string>)
    | UnknownBlock(key: string)
    | MissingEntryField(field: string)

  /** The aggregate: its name, the library it validates against, its blocks
      by key in insertion order, and its connections in creation order. */
  datatype AppState = AppState(
    name: string,
    library: Library,
    blocks: Dict<BlockInstance>,
    connections: seq<Connection>)

  /** A fresh, empty app bound to `library`. */
  function NewApp(name: string, library: Library): AppState {
    AppState(name, library, Empty(), [])
  }

  predicate HasRequiredFields(b: BlockInstance) {
    forall f | f in b.schema.requiredFields :: f in b.config
  }

  /** The aggregate's invariant: keys unique and listed in order, every block
      stored under its own key with a schema from the library and a config
      holding that schema's required fields, and every connection between
      stored blocks. */
  ghost predicate Consistent(s: AppState) {
    && IsOrdered(s.blocks)
    && (forall k | k in s.blocks.entries ::
          && s.blocks.entries[k].key == k
          && s.blocks.entries[k].schema in s.library.entries.Values
          && HasRequiredFields(s.blocks.entries[k]))
    && (forall i | 0 <= i < |s.connections| ::
          s.connections[i].source in s.blocks.entries && s.connections[i].target in s.blocks.entries)
  }

  lemma NewAppConsistent(name: string, library: Library)
    ensures Consistent(NewApp(name, library))
  {
  }

  /** `a` is `b` with some elements left out, order kept. */
  ghost predicate IsSubsequence(a: seq<string>, b: seq<string>)
    decreases |b|
  {
    if a == [] then true
    else if b == [] then false
    else if a[0] == b[0] then IsSubsequence(a[1..], b[1..])
    else IsSubsequence(a, b[1..])
  }

  /** The required fields absent from `config`: every one of them, in the
      schema's order. */
  function Missing(required: seq<string>, config: Config): (r: seq<string>)
    ensures forall f :: f in r <==> f in required && f !in config
    ensures IsSubsequence(r, required)
    decreases |required|
  {
    if required == [] then []
    else if required[0] in config then Missing(required[1..], config)
    else [required[0]] + Missing(required[1..], config)
  }

  /** A missing field is reported as many times as the schema lists it. */
  lemma {:induction false} MissingCounts(required: seq<string>, config: Config)
    ensures forall f ::
      multiset(Missing(required, config))[f] == if f in config then 0 else multiset(required)[f]
    decreases |required|
  {
    if required != [] {
      assert required == [required[0]] + required[1..];
      MissingCounts(required[1..], config);
    }
  }

  /** `add_block`: the type must be in the library, then the key must be new,
      then every required field must be in the config (absent config reads
      as empty). On success the block is stored under its key, last in
      order, with its config as given; nothing else changes. */
  function TryAddBlock(s: AppState, blockType: string, key: string, config: Option<Config>)
    : (r: Result<AppState, BuildError>)
    ensures blockType !in s.library.entries ==> r == Failure(SchemaNotFound(blockType))
    ensures blockType in s.library.entries && key in s.blocks.entries ==> r == Failure(DuplicateKey(key))
    ensures r.Success? <==>
      && blockType in s.library.entries
      && key !in s.blocks.entries
      && HasRequiredFields(BlockInstance(key, s.library.entries[blockType], config.GetOr(map[])))
    ensures r.Failure? && blockType in s.library.entries && key !in s.blocks.entries ==>
      r.error == MissingRequiredFields(blockType,
        Missing(s.library.entries[blockType].requiredFields, config.GetOr(map[])))
    ensures r.Success? ==>
      && r.value.name == s.name
      && r.value.library == s.library
      && r.value.connections == s.connections
      && r.value.blocks.keys == s.blocks.keys + [key]
      && r.value.blocks.entries ==
           s.blocks.entries[key := BlockInstance(key, s.library.entries[blockType], config.GetOr(map[]))]
  {
    if blockType !in s.library.entries then Failure(SchemaNotFound(blockType))
    else if key in s.blocks.entries then Failure(DuplicateKey(key))
    else
      var cfg := config.GetOr(map[]);
      var schema := s.library.entries[blockType];
      var missing := Missing(schema.requiredFields, cfg);
      if missing != [] then
        assert missing[0] in schema.requiredFields && missing[0] !in cfg;
        Failure(MissingRequiredFields(blockType, missing))
      else Success(s.(blocks := Put(s.blocks, key, BlockInstance(key, schema, cfg))))
  }

  /** `connect`: the source must be a stored block, then the target. On
      success exactly one connection is appended; self-loops and repeated
      edges are accepted. */
  function TryConnect(s: AppState, source: string, target: string, purpose: string)
    : (r: Result<AppState, BuildError>)
    ensures source !in s.blocks.entries ==> r == Failure(UnknownBlock(source))
    ensures source in s.blocks.entries && target !in s.blocks.entries ==> r == Failure(UnknownBlock(target))
    ensures r.Success? <==> source in s.blocks.entries && target in s.blocks.entries
    ensures r.Success? ==>
      r.value == s.(connections := s.connections + [Connection(source, target, purpose)])
  {
    if source !in s.blocks.entries then Failure(UnknownBlock(source))
    else if target !in s.blocks.entries then Failure(UnknownBlock(target))
    else Success(s.(connections := s.connections + [Connection(source, target, purpose)]))
  }

  lemma AddBlockKeepsConsistent(s: AppState, blockType: string, key: string, config: Option<Config>)
    requires Consistent(s)
    ensures TryAddBlock(s, blockType, key, config).Success? ==>
            Consistent(TryAddBlock(s, blockType, key, config).value)
  {
    if TryAddBlock(s, blockType, key, config).Success? {
      PutKeepsOrdered(s.blocks, key, BlockInstance(key, s.library.entries[blockType], config.GetOr(map[])));
    }
  }

  lemma ConnectKeepsConsistent(s: AppState, source: string, target: string, purpose: string)
    requires Consistent(s)
    ensures TryConnect(s, source, target, purpose).Success? ==>
            Consistent(TryConnect(s, source, target, purpose).value)
  {
  }

  /** A second block under a key already used fails with `DuplicateKey`,
      whatever its type (from the library) and config. */
  lemma AddTwiceRejected(s: AppState, t1: string, t2: string, key: string, c1: Option<Config>, c2: Option<Config>)
    requires TryAddBlock(s, t1, key, c1).Success?
    requires t2 in s.library.entries
    ensures TryAddBlock(TryAddBlock(s, t1, key, c1).value, t2, key, c2) == Failure(DuplicateKey(key))
  {
  }

  /** A connection may join a block to itself, and the same edge may be
      added again; each call appends one more connection. */
  lemma SelfLoopAndRepeatAccepted(s: AppState, key: string, purpose: string)
    requires key in s.blocks.entries
    ensures TryConnect(s, key, key, purpose).Success?
    ensures var s1 := TryConnect(s, key, key, purpose).value;
      TryConnect(s1, key, key, purpose).Success? &&
      TryConnect(s1, key, key, purpose).value.connections ==
        s.connections + [Connection(key, key, purpose), Connection(key, key, purpose)]
  {
  }

  /** The block-entry comprehension of `blueprint()`. */
  function BlockDicts(bs: seq<BlockInstance>): (es: seq<BlockEntry>)
    ensures |es| == |bs|
    ensures forall i | 0 <= i < |bs| :: es[i] == bs[i].ToDict()
  {
    seq(|bs|, i requires 0 <= i < |bs| => bs[i].ToDict())
  }

  /** The connection-entry comprehension of `blueprint()`, kept apart from
      `BlockDicts` because the two lists have different entry types. */
  function ConnectionDicts(cs: seq<Connection>): (es: seq<ConnectionEntry>)
    ensures |es| == |cs|
    ensures forall i | 0 <= i < |cs| :: es[i] == cs[i].ToDict()
  {
    seq(|cs|, i requires 0 <= i < |cs| => cs[i].ToDict())
  }

  /** `blueprint()`: the name, one entry per block in insertion order, and
      one entry per connection in creation order. */
  function ToDocument(s: AppState): (d: Document)
    requires IsOrdered(s.blocks)
    ensures d.name == Some(s.name)
    ensures d.blocks.Some? && |d.blocks.value| == |s.blocks.keys|
    ensures forall i | 0 <= i < |s.blocks.keys| ::
      d.blocks.value[i] == s.blocks.entries[s.blocks.keys[i]].ToDict()
    ensures d.connections.Some? && |d.connections.value| == |s.connections|
    ensures forall i | 0 <= i < |s.connections| :: d.connections.value[i] == s.connections[i].ToDict()
  {
    Document(Some(s.name), Some(BlockDicts(Values(s.blocks))), Some(ConnectionDicts(s.connections)))
  }

  /** Replays one block entry: its type, then its key, must be present; its
      config defaults to empty. */
  function LoadBlock(s: AppState, e: BlockEntry): Result<AppState, BuildError> {
    if e.blockType.None? then Failure(MissingEntryField("type"))
    else if e.key.None? then Failure(MissingEntryField("key"))
    else TryAddBlock(s, e.blockType.value, e.key.value, Some(e.config.GetOr(map[])))
  }

  /** Replays block entries in document order; the first failure wins. */
  function ReplayBlocks(s: AppState, es: seq<BlockEntry>): Result<AppState, BuildError>
    decreases |es|
  {
    if es == [] then Success(s)
    else match LoadBlock(s, es[0])
      case Failure(err) => Failure(err)
      case Success(s') => ReplayBlocks(s', es[1..])
  }

  /** Replays connection entries in document order; the first failure wins. */
  function ReplayConnections(s: AppState, es: seq<ConnectionEntry>): Result<AppState, BuildError>
    decreases |es|
  {
    if es == [] then Success(s)
    else
      var c := ReadConnection(es[0]);
      match TryConnect(s, c.source, c.target, c.purpose)
      case Failure(err) => Failure(err)
      case Success(s') => ReplayConnections(s', es[1..])
  }

  lemma {:induction false} ReplayBlocksKeepsConsistent(s: AppState, es: seq<BlockEntry>)
    requires Consistent(s)
    ensures ReplayBlocks(s, es).Success? ==>
      && Consistent(ReplayBlocks(s, es).value)
      && ReplayBlocks(s, es).value.name == s.name
      && ReplayBlocks(s, es).value.library == s.library
    decreases |es|
  {
    if es != [] && LoadBlock(s, es[0]).Success? {
      AddBlockKeepsConsistent(s, es[0].blockType.value, es[0].key.value, Some(es[0].config.GetOr(map[])));
      ReplayBlocksKeepsConsistent(LoadBlock(s, es[0]).value, es[1..]);
    }
  }

  lemma {:induction false} ReplayConnectionsKeepsConsistent(s: AppState, es: seq<ConnectionEntry>)
    requires Consistent(s)
    ensures ReplayConnections(s, es).Success? ==>
      && Consistent(ReplayConnections(s, es).value)
      && ReplayConnections(s, es).value.name == s.name
      && ReplayConnections(s, es).value.library == s.library
    decreases |es|
  {
    if es != [] {
      var c := ReadConnection(es[0]);
      if TryConnect(s, c.source, c.target, c.purpose).Success? {
        ConnectKeepsConsistent(s, c.source, c.target, c.purpose);
        ReplayConnectionsKeepsConsistent(TryConnect(s, c.source, c.target, c.purpose).value, es[1..]);
      }
    }
  }

  /** `from_blueprint`: a fresh app named by the document (or `DefaultName`)
      and bound to the default library, then every block entry and every
      connection entry replayed through the validated mutations (absent
      lists read as empty). Whatever the document, a loaded app satisfies
      the aggregate's invariant. */
  function Replay(doc: Document): (r: Result<AppState, BuildError>)
    ensures r.Success? ==>
      && Consistent(r.value)
      && r.value.name == doc.name.GetOr(DefaultName)
      && r.value.library == DefaultCatalogue()
  {
    var s0 := NewApp(doc.name.GetOr(DefaultName), DefaultCatalogue());
    NewAppConsistent(s0.name, s0.library);
    ReplayBlocksKeepsConsistent(s0, doc.blocks.GetOr([]));
    match ReplayBlocks(s0, doc.blocks.GetOr([]))
    case Failure(err) => Failure(err)
    case Success(s1) =>
      ReplayConnectionsKeepsConsistent(s1, doc.connections.GetOr([]));
      ReplayConnections(s1, doc.connections.GetOr([]))
  }

  /** An absent block list loads as an empty one, and so does an absent
      connection list, whatever else the document holds. */
  lemma AbsentListsReadAsEmpty(doc: Document)
    ensures Replay(doc.(blocks := None)) == Replay(doc.(blocks := Some([])))
    ensures Replay(doc.(connections := None)) == Replay(doc.(connections := Some([])))
  {
  }

  /** `list_library`: the dictionary form of every schema, in library order;
      an absent or empty library falls back to the default one. */
  function ListLibrary(library: Option<Library>): (r: seq<JsonValue>)
    requires library.Some? ==> IsOrdered(library.value)
    ensures library.Some? && library.value.keys != [] ==>
      && |r| == |library.value.keys|
      && forall i | 0 <= i < |r| :: SchemaFromDict(r[i]) == Some(library.value.entries[library.value.keys[i]])
    ensures library.None? || library.value.keys == [] ==>
      && |r| == |DefaultTypes|
      && forall i | 0 <= i < |r| :: SchemaFromDict(r[i]) == Some(DefaultCatalogue().entries[DefaultTypes[i]])
  {
    var chosen := if library.None? || library.value.keys == [] then DefaultCatalogue() else library.value;
    DefaultKeysAreTypes();
    var schemas := Values(chosen);
    seq(|schemas|, i requires 0 <= i < |schemas| => schemas[i].ToDict())
  }
}
