/** The block library: the schemas of the block types an app can be built
    from, the block instances placed in an app, and the default catalogue of
    six types merged from three category groups. */
module Blocks {
  import opened Wrappers
  import opened Json
  import opened Dicts

  /** A block's configuration: field name to value. */
  type Config = map<string, JsonValue>

  datatype Category = Layout | Data | Interaction

  /** The category as it is written in documents. */
  function CategoryName(c: Category): string {
    match c
    case Layout => "layout"
    case Data => "data"
    case Interaction => "interaction"
  }

  /** Reads a category name back; any other string names no category. */
  function ParseCategory(s: string): (c: Option<Category>)
    ensures c.Some? <==> s in {"layout", "data", "interaction"}
    ensures c.Some? ==> CategoryName(c.value) == s
  {
    if s == "layout" then Some(Layout)
    else if s == "data" then Some(Data)
    else if s == "interaction" then Some(Interaction)
    else None
  }

  /** The five attribute names of a schema's dictionary form. */
  const SchemaDictKeys: set<string> :=
    {"type", "category", "description", "required_fields", "optional_fields"}

  datatype BlockSchema = BlockSchema(
    blockType: string,
    category: Category,
    description: string,
    requiredFields: seq<string>,
    optionalFields: map<string, JsonValue>)
  {
    /** The schema as a dictionary: all five attributes under their own
        names, `required_fields` as a list in the schema's order. */
    function ToDict(): (d: JsonValue)
      ensures d.JObject? && d.fields.Keys == SchemaDictKeys
      ensures SchemaFromDict(d) == Some(this)
    {
      StringListRoundTrip(requiredFields);
      JObject(map[
        "type" := JString(blockType),
        "category" := JString(CategoryName(category)),
        "description" := JString(description),
        "required_fields" := JArray(StringList(requiredFields)),
        "optional_fields" := JObject(optionalFields)])
    }
  }

  function StringList(ss: seq<string>): (js: seq<JsonValue>)
    ensures |js| == |ss|
  {
    seq(|ss|, i requires 0 <= i < |ss| => JString(ss[i]))
  }

  /** Reads a JSON list of strings; fails on any element that is not a string. */
  function ReadStrings(js: seq<JsonValue>): Option<seq<string>>
    decreases |js|
  {
    if js == [] then Some([])
    else if !js[0].JString? then None
    else match ReadStrings(js[1..])
      case None => None
      case Some(rest) => Some([js[0].str] + rest)
  }

  lemma {:induction false} StringListRoundTrip(ss: seq<string>)
    ensures ReadStrings(StringList(ss)) == Some(ss)
    decreases |ss|
  {
    if ss != [] {
      assert StringList(ss)[1..] == StringList(ss[1..]);
      StringListRoundTrip(ss[1..]);
      assert [ss[0]] + ss[1..] == ss;
    }
  }

  /** Reads a schema back from its dictionary form: the inverse of `ToDict`. */
  function SchemaFromDict(d: JsonValue): Option<BlockSchema> {
    if !d.JObject? || d.fields.Keys != SchemaDictKeys then None
    else
      var f := d.fields;
      if !f["type"].JString? || !f["category"].JString? || !f["description"].JString?
         || !f["required_fields"].JArray? || !f["optional_fields"].JObject?
      then None
      else match (ParseCategory(f["category"].str), ReadStrings(f["required_fields"].items))
        case (Some(c), Some(req)) =>
          Some(BlockSchema(f["type"].str, c, f["description"].str, req, f["optional_fields"].fields))
        case _ => None
  }

  /** A block's persisted form; a field is `None` when the document lacks it. */
  datatype BlockEntry = BlockEntry(
    key: Option<string>,
    blockType: Option<string>,
    category: Option<string>,
    config: Option<Config>)

  datatype BlockInstance = BlockInstance(key: string, schema: BlockSchema, config: Config) {
    /** The persisted form: the key, the schema's type and category, and the
        configuration unchanged. */
    function ToDict(): (e: BlockEntry)
      ensures e.key == Some(key) && e.blockType == Some(schema.blockType)
      ensures e.category.Some? && ParseCategory(e.category.value) == Some(schema.category)
      ensures e.config == Some(config)
    {
      BlockEntry(Some(key), Some(schema.blockType), Some(CategoryName(schema.category)), Some(config))
    }
  }

  /** A library maps type ids to schemas, in insertion order. */
  type Library = Dict<BlockSchema>

  const PageDescription: string := "Grundlayout för en sida som kan innehålla komponenter och navigering."
  const CardDescription: string := "Kortliknande yta för att gruppera information eller formulär."
  const DataListDescription: string := "Visar en lista med poster från ett datakälla- eller API-anrop."
  const FormDescription: string := "Formulär som kan skapa eller uppdatera data."
  const ActionButtonDescription: string := "Knapp som kan kopplas till en åtgärd eller ett API-anrop."
  const ApiRequestDescription: string := "Utför ett HTTP-anrop och exponerar resultatet som data för andra block."

  function PageSchema(): BlockSchema {
    BlockSchema("page", Layout,
      PageDescription,
      ["title"], map["navigation" := JArray([])])
  }

  function CardSchema(): BlockSchema {
    BlockSchema("card", Layout,
      CardDescription,
      [], map["icon" := JNull])
  }

  function DataListSchema(): BlockSchema {
    BlockSchema("data-list", Data,
      DataListDescription,
      ["source"], map["fields" := JArray([])])
  }

  function FormSchema(): BlockSchema {
    BlockSchema("form", Data,
      FormDescription,
      ["fields"], map["submit_action" := JString("")])
  }

  function ActionButtonSchema(): BlockSchema {
    BlockSchema("action-button", Interaction,
      ActionButtonDescription,
      ["label"], map["action" := JString("")])
  }

  function ApiRequestSchema(): BlockSchema {
    BlockSchema("api-request", Interaction,
      ApiRequestDescription,
      ["url", "method"], map["headers" := JObject(map[]), "body" := JObject(map[])])
  }

  function LayoutBlocks(): (g: Library)
    ensures IsOrdered(g)
  {
    Dict(["page", "card"], map["page" := PageSchema(), "card" := CardSchema()])
  }

  function DataBlocks(): (g: Library)
    ensures IsOrdered(g)
  {
    Dict(["data-list", "form"], map["data-list" := DataListSchema(), "form" := FormSchema()])
  }

  function InteractionBlocks(): (g: Library)
    ensures IsOrdered(g)
  {
    Dict(["action-button", "api-request"],
      map["action-button" := ActionButtonSchema(), "api-request" := ApiRequestSchema()])
  }

  /** The groups in the order the default library merges them. */
  function Groups(): (gs: seq<Library>)
    ensures forall i | 0 <= i < |gs| :: IsOrdered(gs[i])
  {
    [LayoutBlocks(), DataBlocks(), InteractionBlocks()]
  }

  /** Starting from an empty library, `update` with each group in turn. */
  function MergeAll(groups: seq<Library>): Library
    requires forall i | 0 <= i < |groups| :: IsOrdered(groups[i])
    decreases |groups|
  {
    if groups == [] then Empty()
    else Update(MergeAll(groups[..|groups| - 1]), groups[|groups| - 1])
  }

  /** The default catalogue as one table: each baseline type id bound to its
      schema, in the order the groups list them. */
  function DefaultCatalogue(): (c: Library)
    ensures IsOrdered(c)
  {
    Dict(DefaultTypes, map[
      "page" := PageSchema(), "card" := CardSchema(),
      "data-list" := DataListSchema(), "form" := FormSchema(),
      "action-button" := ActionButtonSchema(), "api-request" := ApiRequestSchema()])
  }

  /** The six default type ids, in library order. */
  const DefaultTypes: seq<string> :=
    ["page", "card", "data-list", "form", "action-button", "api-request"]

  /** Builds the default library as `default_library` does, merging the groups one
      after another into an initially empty dictionary. Every call yields
      the same catalogue. */
  method DefaultLibrary() returns (library: Library)
    ensures library == DefaultCatalogue()
    ensures library.keys == DefaultTypes
  {
    var groups := Groups();
    library := Empty();
    for i := 0 to |groups|
      invariant library == MergeAll(groups[..i])
    {
      assert groups[..i + 1][..i] == groups[..i];
      library := Update(library, groups[i]);
    }
    assert groups[..|groups|] == groups;
    DefaultIsDisjointMerge();
  }

  /** Merging two key-disjoint groups overwrites nothing: the result is
      their concatenation. */
  lemma MergeTwoDisjoint(a: Library, b: Library)
    requires IsOrdered(a) && IsOrdered(b)
    requires a.entries.Keys !! b.entries.Keys
    ensures MergeAll([a, b]) == Dict(a.keys + b.keys, a.entries + b.entries)
  {
    assert [a][..0] == [];
    assert MergeAll([a]) == Update(Empty(), a);
    UpdateDisjoint(Empty(), a);
    assert [] + a.keys == a.keys;
    assert map[] + a.entries == a.entries;
    assert [a, b][..1] == [a];
    UpdateDisjoint(a, b);
  }

  /** The same for three groups, each disjoint from those before it. */
  lemma MergeThreeDisjoint(a: Library, b: Library, c: Library)
    requires IsOrdered(a) && IsOrdered(b) && IsOrdered(c)
    requires a.entries.Keys !! b.entries.Keys
    requires (a.entries.Keys + b.entries.Keys) !! c.entries.Keys
    ensures MergeAll([a, b, c]) == Dict(a.keys + b.keys + c.keys, a.entries + b.entries + c.entries)
  {
    MergeTwoDisjoint(a, b);
    assert [a, b, c][..2] == [a, b];
    UpdateDisjoint(MergeAll([a, b]), c);
  }

  lemma GroupKeys()
    ensures LayoutBlocks().keys + DataBlocks().keys + InteractionBlocks().keys == DefaultTypes
  {
  }

  lemma LayoutEntries()
    ensures forall t | t in LayoutBlocks().entries ::
      t in DefaultCatalogue().entries && DefaultCatalogue().entries[t] == LayoutBlocks().entries[t]
  {
  }

  lemma DataEntries()
    ensures forall t | t in DataBlocks().entries ::
      t in DefaultCatalogue().entries && DefaultCatalogue().entries[t] == DataBlocks().entries[t]
  {
  }

  lemma InteractionEntries()
    ensures forall t | t in InteractionBlocks().entries ::
      t in DefaultCatalogue().entries && DefaultCatalogue().entries[t] == InteractionBlocks().entries[t]
  {
  }

  lemma GroupEntryKeys()
    ensures (LayoutBlocks().entries + DataBlocks().entries + InteractionBlocks().entries).Keys
         == DefaultCatalogue().entries.Keys
  {
  }

  lemma GroupEntries()
    ensures LayoutBlocks().entries + DataBlocks().entries + InteractionBlocks().entries
         == DefaultCatalogue().entries
  {
    var l, d, i := LayoutBlocks().entries, DataBlocks().entries, InteractionBlocks().entries;
    var u, c := l + d + i, DefaultCatalogue().entries;
    GroupEntryKeys();
    LayoutEntries();
    DataEntries();
    InteractionEntries();
    forall t | t in u ensures u[t] == c[t] {
      if t in i {
      } else if t in d {
      } else {
      }
    }
  }

  /** The three groups share no type id, so merging them one after another,
      as the default library does, overwrites nothing and yields exactly
      the default catalogue. */
  lemma DefaultIsDisjointMerge()
    ensures LayoutBlocks().entries.Keys !! DataBlocks().entries.Keys
    ensures (LayoutBlocks().entries.Keys + DataBlocks().entries.Keys) !! InteractionBlocks().entries.Keys
    ensures MergeAll(Groups()) == DefaultCatalogue()
  {
    MergeThreeDisjoint(LayoutBlocks(), DataBlocks(), InteractionBlocks());
    GroupKeys();
    GroupEntries();
  }

  /** The default library holds exactly the six baseline types, in order. */
  lemma DefaultCatalogueTypes()
    ensures DefaultCatalogue().keys == DefaultTypes
    ensures DefaultCatalogue().entries.Keys ==
      {"page", "card", "data-list", "form", "action-button", "api-request"}
  {
  }

  /** Every default schema is filed under its own type id. */
  lemma DefaultKeysAreTypes()
    ensures forall t | t in DefaultCatalogue().entries :: DefaultCatalogue().entries[t].blockType == t
  {
  }

  /** The required fields of each default type, in the schema's order. */
  lemma DefaultRequiredFields()
    ensures DefaultCatalogue().entries["page"].requiredFields == ["title"]
    ensures DefaultCatalogue().entries["card"].requiredFields == []
    ensures DefaultCatalogue().entries["data-list"].requiredFields == ["source"]
    ensures DefaultCatalogue().entries["form"].requiredFields == ["fields"]
    ensures DefaultCatalogue().entries["action-button"].requiredFields == ["label"]
    ensures DefaultCatalogue().entries["api-request"].requiredFields == ["url", "method"]
  {
  }

  /** The category of each default type. */
  lemma DefaultCategories()
    ensures DefaultCatalogue().entries["page"].category == Layout
    ensures DefaultCatalogue().entries["card"].category == Layout
    ensures DefaultCatalogue().entries["data-list"].category == Data
    ensures DefaultCatalogue().entries["form"].category == Data
    ensures DefaultCatalogue().entries["action-button"].category == Interaction
    ensures DefaultCatalogue().entries["api-request"].category == Interaction
  {
  }
}
