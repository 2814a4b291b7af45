/** The behaviours the repository's tests exercise, stated over the model
    and over the builder class. */
module Scenarios {
  import opened Wrappers
  import opened Json
  import opened Blocks
  import opened Apps
  import RoundTrip
  import Builder

  const StartConfig: Config := map["title" := JString("Start")]
  const FetchConfig: Config := map["url" := JString("https://api.exempel.se"), "method" := JString("GET")]

  /** What the scenarios need to know of a library: the page and the API
      request types with their required fields. */
  predicate HasDemoTypes(library: Library) {
    && "page" in library.entries && library.entries["page"].requiredFields == ["title"]
    && "api-request" in library.entries && library.entries["api-request"].requiredFields == ["url", "method"]
  }

  lemma DefaultHasDemoTypes()
    ensures HasDemoTypes(DefaultCatalogue())
  {
    DefaultRequiredFields();
    DefaultCatalogueTypes();
  }

  /** A page without a title is refused, naming the missing field; with one
      it is stored under its key with the library's page schema. */
  lemma PageNeedsTitle(library: Library)
    requires HasDemoTypes(library)
    ensures TryAddBlock(NewApp("Demo", library), "page", "start", Some(map[]))
         == Failure(MissingRequiredFields("page", ["title"]))
    ensures TryAddBlock(NewApp("Demo", library), "page", "start", Some(StartConfig)).Success?
    ensures TryAddBlock(NewApp("Demo", library), "page", "start", Some(StartConfig)).value.blocks.entries["start"]
         == BlockInstance("start", library.entries["page"], StartConfig)
  {
    var empty: Config := map[];
    assert ["title"][1..] == [];
    assert Missing(["title"], empty) == ["title"] + Missing([], empty) == ["title"];
    assert "title" in library.entries["page"].requiredFields;
    assert !HasRequiredFields(BlockInstance("start", library.entries["page"], empty));
    assert "title" in StartConfig;
    NewAppConsistent("Demo", library);
    AddStep(NewApp("Demo", library), "page", "start", StartConfig);
  }

  /** A block whose type is known, whose key is new and whose config holds
      the required fields is accepted, and the app stays consistent. */
  lemma AddStep(s: AppState, blockType: string, key: string, config: Config)
    requires Consistent(s)
    requires blockType in s.library.entries && key !in s.blocks.entries
    requires forall f | f in s.library.entries[blockType].requiredFields :: f in config
    ensures TryAddBlock(s, blockType, key, Some(config)).Success?
    ensures Consistent(TryAddBlock(s, blockType, key, Some(config)).value)
  {
    AddBlockKeepsConsistent(s, blockType, key, Some(config));
  }

  /** The demo app on `library`: a start page, an API request feeding it,
      and the connection between them. */
  function DemoApp(library: Library): (s: AppState)
    requires HasDemoTypes(library)
    ensures Consistent(s) && s.library == library
    ensures s.name == "Demo" && s.blocks.keys == ["start", "hämta"]
    ensures s.connections == [Connection("hämta", "start", "provides-data")]
  {
    var s0 := NewApp("Demo", library);
    NewAppConsistent("Demo", library);
    assert "title" in StartConfig;
    AddStep(s0, "page", "start", StartConfig);
    var s1 := TryAddBlock(s0, "page", "start", Some(StartConfig)).value;
    assert "url" in FetchConfig && "method" in FetchConfig;
    AddStep(s1, "api-request", "hämta", FetchConfig);
    var s2 := TryAddBlock(s1, "api-request", "hämta", Some(FetchConfig)).value;
    ConnectKeepsConsistent(s2, "hämta", "start", "provides-data");
    TryConnect(s2, "hämta", "start", "provides-data").value
  }

  /** Saving the demo app's blueprint and loading it again gives back the
      same name, the same blocks and the one connection. */
  lemma DemoReloads()
    ensures HasDemoTypes(DefaultCatalogue())
    ensures Replay(ToDocument(DemoApp(DefaultCatalogue()))) == Success(DemoApp(DefaultCatalogue()))
  {
    DefaultHasDemoTypes();
    RoundTrip.RoundTrip(DemoApp(DefaultCatalogue()));
  }

  /** The demo app built through the builder object on `library`. */
  method BuildDemo(library: Library) returns (builder: Builder.AppBuilder)
    requires HasDemoTypes(library)
    ensures fresh(builder) && builder.Valid() && builder.State() == DemoApp(library)
  {
    builder := new Builder.AppBuilder("Demo", library);
    var page := builder.AddBlock("page", "start", Some(StartConfig));
    var fetch := builder.AddBlock("api-request", "hämta", Some(FetchConfig));
    var link := builder.Connect("hämta", "start", "provides-data");
  }

  /** The demo scenario end to end: build on the default library, take the
      blueprint, load it into a new builder, which then has the same name,
      the same blocks in the same order and the one connection. */
  method BuildAndReload() returns (loaded: Builder.AppBuilder)
    ensures loaded.name == "Demo"
    ensures loaded.blocks.keys == ["start", "hämta"]
    ensures |loaded.connections| == 1
  {
    var library := DefaultLibrary();
    DefaultHasDemoTypes();
    var builder := BuildDemo(library);
    var doc := builder.Blueprint();
    var r := Builder.AppBuilder.FromBlueprint(doc);
    loaded := r.value;
  }

  /** Two calls of the library constructor give equal catalogues. */
  method TwoDefaultLibraries() returns (first: Library, second: Library)
    ensures first == second
  {
    first := DefaultLibrary();
    second := DefaultLibrary();
  }

  /** The default library holds the page and form types. */
  lemma DefaultsListed()
    ensures "page" in DefaultCatalogue().entries && "form" in DefaultCatalogue().entries
    ensures |ListLibrary(None)| == 6
  {
  }
}
