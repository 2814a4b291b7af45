# Adaptable blueprint core in Dafny

Adaptable is a no-code app builder. An app is a named **blueprint** that has
three parts:

- blocks, stored by key in insertion order, each being an instance of a schema from a block library;
- directed connections between blocks, each labelled with a purpose;
- the library the blueprint validates against.

The library is a fixed catalogue of six block schemas: `page` and `card` are
layout, `data-list` and `form` are data, and `action-button` and `api-request`
are interaction. Each schema has required fields and optional-field defaults.
The catalogue is built by merging three category groups.

The program changes a blueprint only through its two validated mutators:

- **adding a block** checks, in order, for an unknown type, then a duplicate key, then missing required fields;
- **connecting** checks that both endpoints exist.

A blueprint is saved as a document holding its name, one entry per block and
one entry per connection. Loading a document *replays* the two operations over
its entries on a fresh blueprint bound to the default library, so every check
applies again on load.

The project is organised as follows:

- `wrappers.dfy`: `Option` and `Result`.
- `json.dfy`: `JsonValue`, the type of config values and optional-field defaults.
- `dicts.dfy`: Python's insertion-ordered dictionary. It is a key sequence plus a map, with the representation invariant `IsOrdered` and the operations `d[k] = v`, `values()` and `update`.
- `blocks.dfy`:
  - schemas and block instances, with their dictionary forms;
  - the three category groups and the default catalogue;
  - `DefaultLibrary`, the merge loop;
  - the facts about the catalogue.
- `app_model.dfy`: the blueprint as a value (`AppState`):
  - its invariant `Consistent`;
  - the two operations as total functions returning a `Result`;
  - the document form;
  - the replay that loads a document;
  - `list_library`.
- `round_trip.dfy`: the round-trip law. Loading the document of any consistent blueprint on the default library rebuilds exactly that blueprint.
- `app_builder.dfy`: the builder object, a class whose fields are changed in place:
  - `AddBlock` and `Connect` are proved against the value functions;
  - `Blueprint` produces the document;
  - `FromBlueprint` replays a document with two loops.
- `scenarios.dfy`: the repository's own test scenarios, stated over the model and over the class.

## Model

| member | source | states |
|---|---|---|
| Blocks.ParseCategory | adaptable/blocks.py:6 | A string names a category exactly when it is one of `layout`, `data` or `interaction`. Parsing is the inverse of naming. |
| Blocks.BlockSchema.ToDict | adaptable/blocks.py:19-26 | The dictionary form has exactly the five keys `type`, `category`, `description`, `required_fields` and `optional_fields`. Reading it back gives the same schema, so every attribute is kept and `required_fields` keeps its order. |
| Blocks.StringListRoundTrip | adaptable/blocks.py:23 | Copying the required-field list into JSON strings and reading it back gives the same list in the same order. |
| Blocks.BlockInstance.ToDict | adaptable/blocks.py:37-43 | The entry carries the instance's key, `type` equal to the schema's type, a `category` that parses to the schema's category, and the config unchanged. |
| Blocks.LayoutBlocks | adaptable/blocks.py:46-61 | The layout group (`page`, `card`) is a well-formed dictionary. |
| Blocks.DataBlocks | adaptable/blocks.py:64-80 | The data group (`data-list`, `form`) is a well-formed dictionary. |
| Blocks.InteractionBlocks | adaptable/blocks.py:83-99 | The interaction group (`action-button`, `api-request`) is a well-formed dictionary. |
| Blocks.DefaultCatalogue | adaptable/blocks.py:46-108 | The default catalogue is a well-formed dictionary. |
| Blocks.MergeAll | adaptable/blocks.py:105-107 | The value of the merge loop after the given groups: each group `update`s the result of the earlier ones, starting from `{}`. Its behaviour on the default groups is fixed by `MergeThreeDisjoint`, `DefaultIsDisjointMerge` and `DefaultLibrary`. |
| Blocks.DefaultLibrary | adaptable/blocks.py:102-108 | The loop that merges the three groups into an empty dictionary, one after another, yields exactly the default catalogue. Its keys are `page, card, data-list, form, action-button, api-request`, in that order. |
| Blocks.MergeTwoDisjoint | adaptable/blocks.py:105-107 | Merging two key-disjoint dictionaries concatenates their key orders and unions their entries, so nothing is overwritten. |
| Blocks.MergeThreeDisjoint | adaptable/blocks.py:105-107 | The same for three groups, each disjoint from those before it. |
| Blocks.DefaultIsDisjointMerge | adaptable/blocks.py:46-108 | The three groups are pairwise key-disjoint, and merging them in order gives the default catalogue. |
| Blocks.DefaultCatalogueTypes | adaptable/blocks.py:46-108 | The default library lists exactly the six type ids, in group order. |
| Blocks.DefaultKeysAreTypes | adaptable/blocks.py:48-98 | Every schema is filed under its own type id. |
| Blocks.DefaultRequiredFields | adaptable/blocks.py:48-98 | The required fields are: page `[title]`, card `[]`, data-list `[source]`, form `[fields]`, action-button `[label]`, api-request `[url, method]` in that order. |
| Blocks.DefaultCategories | adaptable/blocks.py:48-98 | page and card are layout, data-list and form are data, action-button and api-request are interaction. |
| Dicts.Empty | adaptable/app_builder.py:29 | A new dictionary is well formed. |
| Dicts.Put | adaptable/app_builder.py:46 | `d[k] = v`: a new key goes last, an existing key keeps its place. Its behaviour is fixed by `PutKeepsOrdered` and by `TryAddBlock`'s success clause. |
| Dicts.PutKeepsOrdered | adaptable/app_builder.py:46 | Assigning a key keeps a dictionary well formed: its keys stay distinct and agree with its entries. |
| Dicts.Values | adaptable/app_builder.py:63 | `values()` has one element per key, and element `i` is the value of key `i` in insertion order. |
| Dicts.Update | adaptable/blocks.py:107 | `d.update(src)`: the entries of `src` are put one by one, in its order. Its behaviour is fixed by `PutAllFreshKeys`, `PutAllFreshEntries` and `UpdateDisjoint`. |
| Dicts.PutAllFreshKeys | adaptable/blocks.py:107 | Putting fresh, distinct keys one by one appends them to the key order. |
| Dicts.PutAllFreshEntries | adaptable/blocks.py:107 | After putting fresh keys, a key is present exactly when it was present before or is among the new keys. Old keys keep their values and new keys get the source's values. |
| Dicts.UpdateDisjoint | adaptable/blocks.py:107 | `update` with a dictionary whose keys are all new appends its key order and adds its entries. |
| Apps.Connection.ToDict | adaptable/app_builder.py:19-20 | The persisted connection has all three fields, and reading it back as load does gives the same connection. |
| Apps.ReadConnection | adaptable/app_builder.py:86-88 | Load reads each absent connection field as `""`. `Connection.ToDict` is proved to be read back by it. |
| Apps.NewApp | adaptable/app_builder.py:76 | `cls(name=name)`: an empty blueprint with the given name and library. `NewAppConsistent` proves it satisfies the invariant. |
| Apps.NewAppConsistent | adaptable/app_builder.py:23-30 | A new blueprint with no blocks and no connections satisfies the invariant. |
| Apps.Missing | adaptable/app_builder.py:41 | A field is reported missing exactly when the schema requires it and the config lacks it. The missing fields appear in the schema's order. |
| Apps.MissingCounts | adaptable/app_builder.py:41 | A missing field is reported as many times as the schema lists it, and a present field not at all. Together with the order clause of `Missing`, this fixes the result to the comprehension's list. |
| Apps.TryAddBlock | adaptable/app_builder.py:32-47 | See the Apps.TryAddBlock outcomes list below this table. |
| Apps.TryConnect | adaptable/app_builder.py:49-58 | An absent source gives `UnknownBlock(source)`, checked first. An absent target gives `UnknownBlock(target)`. Success happens exactly when both endpoints exist, and then exactly one connection is appended and nothing else changes. |
| Apps.AddBlockKeepsConsistent | adaptable/app_builder.py:32-47 | A successful add keeps the invariant. |
| Apps.ConnectKeepsConsistent | adaptable/app_builder.py:49-58 | A successful connect keeps the invariant, which includes endpoints naming stored blocks. |
| Apps.AddTwiceRejected | adaptable/app_builder.py:36-37 | A second add under a used key fails with `DuplicateKey`, whatever the type (if known) or config. |
| Apps.SelfLoopAndRepeatAccepted | adaptable/app_builder.py:49-58 | A self-loop is accepted, and repeating the same edge appends it a second time. |
| Apps.ToDocument | adaptable/app_builder.py:60-65 | The document has the blueprint's name, one entry per block in insertion order (entry `i` is block `i`'s dictionary form), and one entry per connection in list order, with equal lengths. |
| Apps.BlockDicts | adaptable/app_builder.py:63 | One block entry per block, entry `i` being block `i`'s dictionary form. |
| Apps.ConnectionDicts | adaptable/app_builder.py:64 | One connection entry per connection, entry `i` being connection `i`'s dictionary form. |
| Apps.LoadBlock | adaptable/app_builder.py:79-82 | One block entry: a missing `type` fails with `MissingEntryField(type)`, then a missing `key` with `MissingEntryField(key)`; a missing `config` reads as `{}`; otherwise it is `add_block`. `LoadBlockStep` fixes it on saved entries. |
| Apps.ReplayBlocks | adaptable/app_builder.py:78-82 | The block loop: entries in document order, and the first failure ends the load. Its behaviour is fixed by `ReplayBlocksKeepsConsistent` and `RoundTrip.ReplayBlocksFrom`. |
| Apps.ReplayConnections | adaptable/app_builder.py:84-89 | The connection loop, the same way. Its behaviour is fixed by `ReplayConnectionsKeepsConsistent` and `RoundTrip.ReplayConnectionsFrom`. |
| Apps.ReplayBlocksKeepsConsistent | adaptable/app_builder.py:77-82 | Replaying block entries from a consistent state, if it succeeds, gives a consistent state with the same name and library. |
| Apps.ReplayConnectionsKeepsConsistent | adaptable/app_builder.py:84-89 | The same for connection entries. |
| Apps.Replay | adaptable/app_builder.py:74-91 | A successfully loaded blueprint satisfies the invariant. Its name is the document's name, or `Namnlös app` when there is none, and it is bound to the default library. |
| Apps.AbsentListsReadAsEmpty | adaptable/app_builder.py:77-84 | For every document, an absent `blocks` list loads exactly as an empty one, and so does an absent `connections` list. |
| Apps.ListLibrary | adaptable/app_builder.py:121-125 | A non-empty library lists each schema's five-key dictionary in library order, and each reads back as that schema. An absent or empty library lists the six default schemas in default order, each reading back as the default library's schema for its type. |
| RoundTrip.SchemaLookup | adaptable/app_builder.py:79-82 | In a library filed by type id, a stored schema is found again under its own type, which is how a saved `type` re-resolves on load. |
| RoundTrip.PrefixStep | adaptable/app_builder.py:46 | The first `n+1` blocks are the first `n` with block `n` stored last, and block `n`'s key is not yet among the first `n`. |
| RoundTrip.LoadBlockStep | adaptable/app_builder.py:78-82 | Replaying the entry of block `n` on the first `n` blocks adds exactly block `n`. |
| RoundTrip.ReplayBlocksFrom | adaptable/app_builder.py:77-82 | Replaying the remaining block entries from the first `n` blocks rebuilds all blocks. |
| RoundTrip.ReplayConnectionsFrom | adaptable/app_builder.py:84-89 | Replaying the remaining connection entries from the first `n` connections rebuilds all connections in order. |
| RoundTrip.ReplayDocument | adaptable/app_builder.py:74-91 | Starting from an empty blueprint with the same name and library, the block phase rebuilds the blocks and the connection phase then rebuilds the whole blueprint. |
| RoundTrip.RoundTrip | adaptable/app_builder.py:60-91 | Loading the document of any consistent blueprint on the default library gives back exactly that blueprint: the same name, the same keys in the same order with the same schema and config, and the same connections in order. |
| RoundTrip.EmptyDocumentLoads | adaptable/app_builder.py:75-84 | A document with no name, no blocks and no connections loads as an empty blueprint named `Namnlös app` on the default library. |
| Builder.AppBuilder.constructor | adaptable/app_builder.py:23-30 | A new builder has the given name and library, no blocks and no connections, and is valid. |
| Builder.AppBuilder.AddBlock | adaptable/app_builder.py:32-47 | On every error, `TryAddBlock` returns that same error and the builder is unchanged. On success, the fields become `TryAddBlock`'s new state and the stored instance is returned. Validity is preserved. |
| Builder.AppBuilder.Connect | adaptable/app_builder.py:49-58 | On every error, `TryConnect` returns that same error and the builder is unchanged. On success, the fields become `TryConnect`'s new state and the new connection is returned. Validity is preserved. |
| Builder.AppBuilder.Blueprint | adaptable/app_builder.py:60-65 | The document is `ToDocument` of the builder's state. For a builder on the default library, loading that document rebuilds the state exactly. |
| Builder.AppBuilder.FromBlueprint | adaptable/app_builder.py:73-91 | The loops over block entries and then connection entries fail with exactly `Replay`'s error. Otherwise they produce a fresh, valid builder whose state is `Replay`'s result. |
| Scenarios.DefaultHasDemoTypes | adaptable/blocks.py:48-98 | The default library has `page` requiring `[title]` and `api-request` requiring `[url, method]`. |
| Scenarios.PageNeedsTitle | tests/test_app_builder.py:12-18 | A `page` with an empty config fails with `MissingRequiredFields(page, [title])`. With a title, it is stored under `start` with the page schema. |
| Scenarios.AddStep | adaptable/app_builder.py:32-47 | A known type, a new key and a config with every required field give a successful add that keeps the invariant. |
| Scenarios.DemoApp | tests/test_app_builder.py:20-27 | The demo blueprint is consistent. It is named `Demo`, holds blocks `start` and `hämta` in that order, and has the single connection `hämta → start` with purpose `provides-data`. |
| Scenarios.DemoReloads | tests/test_app_builder.py:20-35 | The demo blueprint's document loads back as the same blueprint. |
| Scenarios.BuildDemo | tests/test_app_builder.py:20-27 | Building the demo through the builder object gives a fresh, valid builder whose state is the demo blueprint. |
| Scenarios.BuildAndReload | tests/test_app_builder.py:20-35 | Building, taking the blueprint and loading it yields a builder named `Demo`, with blocks `start` and `hämta` in order and one connection. |
| Scenarios.TwoDefaultLibraries | adaptable/blocks.py:102-108 | Two calls of the library constructor give equal catalogues. |
| Scenarios.DefaultsListed | tests/test_app_builder.py:37-40 | The default library contains `page` and `form`, and listing it with no library gives six schemas. |

Apps.TryAddBlock outcomes:

- An unknown type gives `SchemaNotFound`, whatever the key or config.
- A known type with a used key gives `DuplicateKey`.
- Otherwise a failure is `MissingRequiredFields` with the `Missing` list.
- Success happens exactly when the type is known, the key is new, and the config (absent reads as empty) holds every required field.
- On success:
  - the key is appended last;
  - the entry is exactly `key ↦ BlockInstance(key, library[type], config)`, with no defaults merged in;
  - the name, library, connections and other blocks are unchanged.

## Left out

- The save and load steps (adaptable/app_builder.py:67-71 and 93-100) are not modelled. They only check the file system and encode or decode JSON text. Loading is modelled from an already-parsed document (`Document`).
- The Markdown overview (adaptable/app_builder.py:102-118) is not modelled: it is presentation text built from Python's `str()` of arbitrary values.
- adaptable/cli.py is not part of this model. It is argument parsing, printing and file paths around the operations above.
- Config values are JSON values whose numbers are integers. Floating-point numbers are not modelled.
- A config is a map, so the order of its own keys is not modelled.
- Python's aliasing of the caller's config dictionary, which the stored instance shares, is not modelled: configs are values.
- Schemas are copied into instances by value, so later changes to a library's schema objects are not reflected.
- Errors are distinct datatype cases, one per kind of failure. The exception classes (`KeyError`, `ValueError`) and their Swedish messages are not modelled.
- A missing `type` or `key` in a block entry is the error `MissingEntryField`, which stands for the `KeyError` of `block["type"]` and `block["key"]`.
- Document fields are typed: a field is either absent or of the expected type. A document whose values have the wrong JSON types (a number as a key, `null` as a config) is not modelled.
- Apps.ListLibrary: it requires a well-formed dictionary, which every Python dict is. It returns dictionary forms as JSON objects and states that each reads back as its schema: the given library's, or the default library's when none or an empty one is given. It does not model the `asdict` reflection call itself.
- Apps.Replay: a document without a name loads as `Namnlös app` (adaptable/app_builder.py:75).
- Builder.AppBuilder.constructor: takes only a name and a library. The dataclass constructor (adaptable/app_builder.py:23-30) also accepts `blocks` and `connections` without any check, and its fields are public. Those unchecked arguments are not modelled, because every caller in the repository passes only the name (adaptable/app_builder.py:76, adaptable/cli.py:26, tests/test_app_builder.py:10). The `library` default (`default_library()`) and the `purpose=""` default of `connect` become explicit arguments.

