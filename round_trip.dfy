/** The round-trip law: loading the document of a consistent app bound to the
    default library rebuilds exactly that app. */
module RoundTrip {
  import opened Wrappers
  import opened Dicts
  import opened Blocks
  import opened Apps

  /** The first `n` blocks of `s`, in order, and no connections: the state
      replay reaches after `n` block entries. */
  function BlockPrefix(s: AppState, n: nat): AppState
    requires n <= |s.blocks.keys|
  {
    var ks := s.blocks.keys[..n];
    s.(blocks := Dict(ks, map k | k in ks && k in s.blocks.entries :: s.blocks.entries[k]), connections := [])
  }

  /** Every schema of `library` is filed under its own type id, as in the
      default library. */
  ghost predicate KeyedByType(library: Library) {
    forall t | t in library.entries :: library.entries[t].blockType == t
  }

  /** In such a library a stored schema is found again by its type id. */
  lemma SchemaLookup(library: Library, schema: BlockSchema)
    requires KeyedByType(library) && schema in library.entries.Values
    ensures schema.blockType in library.entries
    ensures library.entries[schema.blockType] == schema
  {
    var t :| t in library.entries && library.entries[t] == schema;
  }

  /** The prefix of `n + 1` blocks is the prefix of `n` with block `n`
      stored last; block `n`'s key is not yet in the shorter prefix. */
  lemma PrefixStep(s: AppState, n: nat)
    requires IsOrdered(s.blocks) && n < |s.blocks.keys|
    ensures s.blocks.keys[n] !in BlockPrefix(s, n).blocks.entries
    ensures BlockPrefix(s, n + 1).blocks.keys == BlockPrefix(s, n).blocks.keys + [s.blocks.keys[n]]
    ensures BlockPrefix(s, n + 1).blocks.entries
         == BlockPrefix(s, n).blocks.entries[s.blocks.keys[n] := s.blocks.entries[s.blocks.keys[n]]]
  {
    var k := s.blocks.keys[n];
    assert k !in s.blocks.keys[..n];
    assert s.blocks.keys[..n] + [k] == s.blocks.keys[..n + 1];
  }

  /** Replaying block entry `n` on the first `n` blocks adds block `n`. */
  lemma LoadBlockStep(s: AppState, n: nat)
    requires Consistent(s) && KeyedByType(s.library)
    requires n < |s.blocks.keys|
    ensures LoadBlock(BlockPrefix(s, n), s.blocks.entries[s.blocks.keys[n]].ToDict())
         == Success(BlockPrefix(s, n + 1))
  {
    var b := s.blocks.entries[s.blocks.keys[n]];
    SchemaLookup(s.library, b.schema);
    PrefixStep(s, n);
  }

  lemma {:induction false} ReplayBlocksFrom(s: AppState, n: nat)
    requires Consistent(s) && KeyedByType(s.library)
    requires n <= |s.blocks.keys|
    ensures ReplayBlocks(BlockPrefix(s, n), ToDocument(s).blocks.value[n..])
         == Success(BlockPrefix(s, |s.blocks.keys|))
    decreases |s.blocks.keys| - n
  {
    var es := ToDocument(s).blocks.value;
    if n < |s.blocks.keys| {
      assert es[n..][0] == es[n];
      assert es[n..][1..] == es[n + 1..];
      LoadBlockStep(s, n);
      ReplayBlocksFrom(s, n + 1);
    }
  }

  lemma {:induction false} ReplayConnectionsFrom(s: AppState, n: nat)
    requires Consistent(s)
    requires n <= |s.connections|
    ensures ReplayConnections(s.(connections := s.connections[..n]), ToDocument(s).connections.value[n..])
         == Success(s)
    decreases |s.connections| - n
  {
    var es := ToDocument(s).connections.value;
    if n < |s.connections| {
      assert es[n..][0] == s.connections[n].ToDict();
      assert es[n..][1..] == es[n + 1..];
      assert s.connections[..n] + [s.connections[n]] == s.connections[..n + 1];
      ReplayConnectionsFrom(s, n + 1);
    } else {
      assert s.connections[..n] == s.connections;
    }
  }

  /** Both replay phases over the document of `s`, starting from an empty
      app with `s`'s name and library: the blocks rebuild `s` without its
      connections, and the connections then complete it. */
  lemma ReplayDocument(s: AppState)
    requires Consistent(s) && KeyedByType(s.library)
    ensures ReplayBlocks(NewApp(s.name, s.library), ToDocument(s).blocks.value)
         == Success(s.(connections := []))
    ensures ReplayConnections(s.(connections := []), ToDocument(s).connections.value) == Success(s)
  {
    var doc := ToDocument(s);
    var n := |s.blocks.keys|;
    assert BlockPrefix(s, 0) == NewApp(s.name, s.library);
    ReplayBlocksFrom(s, 0);
    assert doc.blocks.value[0..] == doc.blocks.value;
    assert s.blocks.keys[..n] == s.blocks.keys;
    assert BlockPrefix(s, n) == s.(connections := []);
    assert s.connections[..0] == [];
    ReplayConnectionsFrom(s, 0);
    assert doc.connections.value[0..] == doc.connections.value;
  }

  /** `from_blueprint(blueprint(b))` rebuilds `b`: the same name, the same
      blocks under the same keys in the same order with the same schemas and
      configs, and the same connections in the same order. */
  lemma RoundTrip(s: AppState)
    requires Consistent(s) && s.library == DefaultCatalogue()
    ensures Replay(ToDocument(s)) == Success(s)
  {
    DefaultKeysAreTypes();
    ReplayDocument(s);
  }

  /** A document without a name, blocks or connections loads as an empty app
      named `DefaultName`. */
  lemma EmptyDocumentLoads()
    ensures Replay(Document(None, None, None)) == Success(NewApp(DefaultName, DefaultCatalogue()))
  {
  }
}
