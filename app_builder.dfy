/** The app builder object: a named blueprint whose blocks and connections
    are changed in place by the two validated mutators, and the loader that
    rebuilds a builder by replaying a document through them. */
module Builder {
  import opened Wrappers
  import opened Dicts
  import opened Blocks
  import opened Apps
  import RoundTrip

  class AppBuilder {
    var name: string
    var library: Library
    var blocks: Dict<BlockInstance>
    var connections: seq<Connection>

    /** The builder's fields as a value. */
    function State(): AppState
      reads this
    {
      AppState(name, library, blocks, connections)
    }

    ghost predicate Valid()
      reads this
    {
      Consistent(State())
    }

    /** A new, empty builder bound to `library`. */
    constructor (name: string, library: Library)
      ensures State() == NewApp(name, library)
      ensures Valid()
    {
      this.name := name;
      this.library := library;
      blocks := Empty();
      connections := [];
    }

    /** `add_block`: fails, leaving the builder unchanged, as `TryAddBlock`
        says; otherwise stores the new block and returns it. */
    method AddBlock(blockType: string, key: string, config: Option<Config>)
      returns (r: Result<BlockInstance, BuildError>)
      modifies this
      ensures TryAddBlock(old(State()), blockType, key, config).Failure? ==>
        && r == Failure(TryAddBlock(old(State()), blockType, key, config).error)
        && State() == old(State())
      ensures TryAddBlock(old(State()), blockType, key, config).Success? ==>
        && State() == TryAddBlock(old(State()), blockType, key, config).value
        && r == Success(BlockInstance(key, old(library).entries[blockType], config.GetOr(map[])))
      ensures old(Valid()) ==> Valid()
    {
      if blockType !in library.entries {
        return Failure(SchemaNotFound(blockType));
      }
      if key in blocks.entries {
        return Failure(DuplicateKey(key));
      }
      var cfg := config.GetOr(map[]);
      var schema := library.entries[blockType];
      var missing := Missing(schema.requiredFields, cfg);
      if missing != [] {
        return Failure(MissingRequiredFields(blockType, missing));
      }
      var instance := BlockInstance(key, schema, cfg);
      if Valid() {
        AddBlockKeepsConsistent(State(), blockType, key, config);
      }
      blocks := Put(blocks, key, instance);
      r := Success(instance);
    }

    /** `connect`: fails, leaving the builder unchanged, as `TryConnect`
        says; otherwise appends the new connection and returns it. */
    method Connect(source: string, target: string, purpose: string)
      returns (r: Result<Connection, BuildError>)
      modifies this
      ensures TryConnect(old(State()), source, target, purpose).Failure? ==>
        && r == Failure(TryConnect(old(State()), source, target, purpose).error)
        && State() == old(State())
      ensures TryConnect(old(State()), source, target, purpose).Success? ==>
        && State() == TryConnect(old(State()), source, target, purpose).value
        && r == Success(Connection(source, target, purpose))
      ensures old(Valid()) ==> Valid()
    {
      if source !in blocks.entries {
        return Failure(UnknownBlock(source));
      }
      if target !in blocks.entries {
        return Failure(UnknownBlock(target));
      }
      var connection := Connection(source, target, purpose);
      if Valid() {
        ConnectKeepsConsistent(State(), source, target, purpose);
      }
      connections := connections + [connection];
      r := Success(connection);
    }

    /** `blueprint()`: the document of the builder's state; for a builder on
        the default library, loading it rebuilds this very state. */
    function Blueprint(): (d: Document)
      reads this
      requires Valid()
      ensures d == ToDocument(State())
      ensures library == DefaultCatalogue() ==> Replay(d) == Success(State())
    {
      if library == DefaultCatalogue() then RoundTrip.RoundTrip(State()); ToDocument(State())
      else ToDocument(State())
    }

    /** `from_blueprint`: a fresh builder on the default library, with every
        block entry and then every connection entry replayed through
        `AddBlock` and `Connect`; the first failure is returned. */
    static method FromBlueprint(doc: Document) returns (r: Result<AppBuilder, BuildError>)
      ensures Replay(doc).Failure? ==> r == Failure(Replay(doc).error)
      ensures Replay(doc).Success? ==>
        r.Success? && fresh(r.value) && r.value.State() == Replay(doc).value && r.value.Valid()
    {
      var library := DefaultLibrary();
      var builder := new AppBuilder(doc.name.GetOr(DefaultName), library);
      ghost var s0 := builder.State();
      var entries := doc.blocks.GetOr([]);
      for i := 0 to |entries|
        invariant fresh(builder) && builder.Valid()
        invariant ReplayBlocks(s0, entries) == ReplayBlocks(builder.State(), entries[i..])
      {
        assert entries[i..][0] == entries[i] && entries[i..][1..] == entries[i + 1..];
        var block := entries[i];
        if block.blockType.None? {
          return Failure(MissingEntryField("type"));
        }
        if block.key.None? {
          return Failure(MissingEntryField("key"));
        }
        var added := builder.AddBlock(block.blockType.value, block.key.value, Some(block.config.GetOr(map[])));
        if added.Failure? {
          return Failure(added.error);
        }
      }
      assert entries[|entries|..] == [];
      ghost var s1 := builder.State();
      var links := doc.connections.GetOr([]);
      for i := 0 to |links|
        invariant fresh(builder) && builder.Valid()
        invariant ReplayConnections(s1, links) == ReplayConnections(builder.State(), links[i..])
      {
        assert links[i..][0] == links[i] && links[i..][1..] == links[i + 1..];
        var link := links[i];
        var connected := builder.Connect(link.source.GetOr(""), link.target.GetOr(""), link.purpose.GetOr(""));
        if connected.Failure? {
          return Failure(connected.error);
        }
      }
      assert links[|links|..] == [];
      r := Success(builder);
    }
  }
}
