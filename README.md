# RE2A property pipeline, modelled in Dafny

This project models the parts of the RE2A real-estate assistant that prepare property records for semantic search, filter what the search returns, and validate the chatbot's form slots.

- **Document preparation** (`services/api/chunker.py`). A nested JSON property record is flattened into `(key-path, text)` pairs. The noise filter drops identifier-like key-paths and useless leaf texts, lists are capped at 50 items and long values are cut to 600 characters plus `…`. Each of the eight sections becomes a `[path] value` document with cleaned metadata, and the chunks of each document are numbered.
- **LangChain/Chroma store** (`services/api/vectorstore_langchain.py`). Upserting replaces the chunks of the given properties under ids `pid::section::idx`. Deleting goes by metadata. Search post-filters the nearest chunks by type, location, bedrooms and budget and keeps at most `max(top_k, 1)` results, because the size check follows the append.
- **Plain Chroma store** (`services/api/vectorstore.py`). One entry per property, with text assembled from its fields. `search` and `search_messages` filter the query results and score them as `1 - distance`.
- **Chatbot actions** (`rasa-bot/actions/actions.py`). The slot validators of the sell and search forms, budget extraction, filter cleaning and the rendering of search results.

JSON values are the datatype `Values.Value`: null, bool, int, float (as a real), string, an object as an ordered list of key/value pairs, and an array. Python behaviour the model does not define is the record `Values.Builtins`, a parameter of every operation that needs it. It holds `str(float)`, `float(str)` as a partial function, `json.dumps`, and `str` of a dict or list. Every store query is a function parameter too. The number of candidates it is asked for shows up in the search contracts.

The form follows the source.
- The recursive walk of `_flatten`, the section loop and metadata cleaning of `json_to_documents`, the numbering loop of `chunk_documents`, the search loops and the render loop are methods. Each is proved equal to a specification function, and the properties are lemmas about those functions.
- The two stores are classes whose methods update an `entries` map.
- The noise predicates, validators and helpers are functions.

`Flattener.Walk` takes the key test as a function, so one walk serves two rules: `_is_noise_key` as written (`KeyRule.AsWritten`) and the allowlist rule as its comment describes it (`KeyRule.Intended`, see Findings). `Chunker.JsonToDocuments` takes the rule as a parameter.

Where the system's documentation and the code disagree, the code is followed:
- `search_properties` allows bedrooms a slack of 1e-6 (`vectorstore_langchain.py:87`). The 0.1 slack applies only in `vectorstore.py:126`.
- A bedrooms or budget value that `float()` cannot read lets the candidate pass (`except: pass`); it does not reject it.

## Model

| member | source | states |
|---|---|---|
| NoiseFilter.NoiseWordSegmentAlwaysNoise | services/api/chunker.py:49 | a key-path whose last dot-segment is id, uuid, code, created_at or updated_at, in any case `Text.Lower` folds and optionally followed by a bracketed part, matches the noise-suffix pattern |
| NoiseFilter.SuffixImpliesNoiseKey | services/api/chunker.py:198-203 | a path matching the suffix pattern is noise under every section, whatever the allowlists say |
| NoiseFilter.NoiseKeysHaveNoiseSuffix | services/api/chunker.py:8-15 | every key of `NOISE_KEYS` is already caught by the suffix rule |
| NoiseFilter.UnrestrictedSectionsOnlyDenylist | services/api/chunker.py:205-211 | for a section that is absent from `ALLOW_SECTIONS` or has an empty set there, a path is noise exactly when it is denylisted or matches the suffix pattern |
| NoiseFilter.AllowlistedSectionRootsAreNoise | services/api/chunker.py:18-37 | the bare paths `design_and_layout` and `legal_and_product_status` are noise in their own sections, because they start with none of their allowed prefixes |
| NoiseFilter.IntendedRuleDiffersOnAncestorsOnly | services/api/chunker.py:205-209 | the corrected allowlist rule only lets more paths through, and it differs from the rule as written exactly on ancestors of allowed prefixes that are neither denylisted nor suffix-matched |
| NoiseFilter.DesignRootKeptWhenIntended | services/api/chunker.py:205-209 | under the corrected rule the root `design_and_layout` is not noise |
| NoiseFilter.LegalRootKeptWhenIntended | services/api/chunker.py:205-209 | under the corrected rule the root `legal_and_product_status` is not noise |
| NoiseFilter.IntTextIsNoise | services/api/chunker.py:213-217 | the text of any Python int, signed or not, is a noise value: it holds no letter |
| NoiseFilter.TruncateValue | services/api/chunker.py:227-232 | a text of at most 600 characters comes back unchanged; a longer one becomes its first 600 characters plus `…`, so at most 601 |
| NoiseFilter.TruncateValueIdempotent | services/api/chunker.py:227-232 | truncating twice gives the same text as truncating once |
| Flattener.KeyPath | services/api/chunker.py:76 | a child path extends its parent's path with a dot, or is the bare key under the empty path |
| Flattener.IndexPath | services/api/chunker.py:81 | an item path extends its list's path with `[` |
| Flattener.Capped | services/api/chunker.py:80 | only a prefix of a list is read, of length at most 50 |
| Flattener.KeepText | services/api/chunker.py:84-89 | a leaf yields at most one pair, exactly when its text is not noise. A kept text holds a letter. The pair's text has 4 to 601 characters: the text itself up to 600, else its first 600 and `…` |
| Flattener.Rec | services/api/chunker.py:69-89 | `rec` appends to the output exactly the pairs `Walk` specifies for the node at its path |
| Flattener.RecFields | services/api/chunker.py:74-77 | the loop over a dict's items appends the pairs of each child at `path.key`, in insertion order |
| Flattener.RecItems | services/api/chunker.py:78-82 | the loop over a list appends the pairs of its first 50 items at `path[i]`, in order |
| Flattener.Flatten | services/api/chunker.py:51-92 | `_flatten` returns exactly the specified pairs of the walk from the prefix |
| Flattener.ObjectWalkInOrder | services/api/chunker.py:74-77 | below a kept path, an object's pairs are the concatenation of its children's pairs in insertion order |
| Flattener.ListWalkInOrder | services/api/chunker.py:78-82 | below a kept path, a list's pairs are the concatenation of its first 50 items' pairs, each at its index |
| Flattener.ListBeyondCapIgnored | services/api/chunker.py:80 | items after the 50th never change the output |
| Flattener.NoisyPathSkipsSubtree | services/api/chunker.py:69-72 | a noisy non-empty path yields no pair, whatever lies below it |
| Flattener.FlattenPairsClean | services/api/chunker.py:69-89 | every emitted pair has a path extending the prefix that is not a noisy key, and a stripped non-noise text truncated to 4 to 601 characters. Its path is reached from the prefix by keys and list indices, and no path visited on the way is noisy |
| Flattener.NullAndIntLeavesDropped | services/api/chunker.py:57-61 | `None` and int leaves never yield a pair |
| Flattener.StringLeafKept | services/api/chunker.py:84-89 | a string leaf at a kept path yields its stripped, truncated text exactly when that text is clean, and nothing otherwise |
| Flattener.SingleFieldWalk | services/api/chunker.py:74-77 | a one-field object at a kept path yields what its value yields at `path.key` |
| Flattener.ShortRootEmitsNothing | services/api/chunker.py:71 | as written, a section whose allowed prefixes are all longer than its name flattens to nothing |
| Flattener.AllowlistedSectionsEmitNothing | services/api/chunker.py:91 | as written, `design_and_layout` and `legal_and_product_status` flatten to nothing, whatever their content |
| Flattener.DesignLocationIndexedWhenIntended | services/api/chunker.py:138 | under the corrected rule, a clean location text of `design_and_layout` yields the pair `design_and_layout.location` with its truncated text |
| Chunker.SafeFloatIgnoresCommas | services/api/chunker.py:98 | thousands separators make no difference to `_safe_float` |
| Chunker.SafeFloatOfDigits | services/api/chunker.py:94-100 | a text of digits reads as its decimal value, given that `float()` reads digit strings |
| Chunker.SafeFloatOfBlank | services/api/chunker.py:98-99 | a text of commas and whitespace only gives None |
| Chunker.FirstNonEmpty | services/api/chunker.py:102-117 | the result is None exactly when no candidate path leads to a value other than None, `""` or `[]`; otherwise it renders the value at the first path that does |
| Chunker.FoundShift | services/api/chunker.py:114-116 | a candidate path that leads nowhere, put in front, does not change the result |
| Chunker.Buckets | services/api/chunker.py:121-134 | the sections are the eight of `buckets`, in their fixed order |
| Chunker.PropertyId | services/api/chunker.py:120 | the property id is `id` when truthy, else `unitId` when truthy, else `"UNKNOWN"` |
| Chunker.RawMetadata | services/api/chunker.py:147-155 | the metadata dict has its seven keys in insertion order |
| Chunker.CleanMetadata | services/api/chunker.py:158-175 | the cleaning loop builds exactly the specified cleaned dict |
| Chunker.CleanedKeys | services/api/chunker.py:159-161 | a key is in the cleaned dict exactly when some entry with that key survives cleaning |
| Chunker.CleanedEntry | services/api/chunker.py:163-170 | with distinct keys, each surviving entry is stored as cleaned: a string for the five text keys, a float for bedrooms and price |
| Chunker.MetadataIdentity | services/api/chunker.py:148-149 | every document's metadata holds the property id and the section, as strings |
| Chunker.MetadataUnitId | services/api/chunker.py:150 | `unitId` is present, as a string, exactly when the record holds a non-null one |
| Chunker.MetadataLocationAndType | services/api/chunker.py:151-152 | `location` and `property_type` are present exactly when a candidate path holds a non-blank value, and are its rendering |
| Chunker.MetadataBedrooms | services/api/chunker.py:153 | `bedrooms` is present, as a float, exactly when `_safe_float` reads its candidate path |
| Chunker.MetadataPrice | services/api/chunker.py:154 | `price` is present, as a float, exactly when `_safe_float` reads its candidate path |
| Chunker.MetadataKeys | services/api/chunker.py:147-175 | the metadata holds no key besides the seven it is built from, so never a None value |
| Chunker.DocumentLinesRoundTrip | services/api/chunker.py:144-145 | when no path or value holds a newline, splitting a document's text at newlines gives back its `[path] value` lines, one per pair, in order |
| Chunker.SectionDocument | services/api/chunker.py:138-176 | the body of the section loop yields the specified document of one section, or none |
| Chunker.JsonToDocuments | services/api/chunker.py:119-177 | the section loop yields exactly the specified documents |
| Chunker.SectionDocFacts | services/api/chunker.py:139-145 | a section's document is tagged with the section, comes from a non-empty pair list, and holds the newline-joined lines of its pairs |
| Chunker.DocumentsBySection | services/api/chunker.py:137-176 | the documents come from distinct sections in the fixed order, each tagged and holding its section's lines, and every section with a pair has one |
| Chunker.NoDocumentWithoutPairs | services/api/chunker.py:139-140 | a section without pairs has no document |
| Chunker.DocumentOfSection | services/api/chunker.py:137-176 | a section with at least one pair has a document holding the lines of its pairs |
| Chunker.NoAllowlistedSectionDocuments | services/api/chunker.py:138 | as written, no document is ever tagged `design_and_layout` or `legal_and_product_status` |
| Chunker.IntendedDesignLocationDocument | services/api/chunker.py:123 | under the corrected rule, a record whose `design_and_layout` holds a clean location gets a `design_and_layout` document with that location's line |
| Chunker.NumberChunks | services/api/chunker.py:192-194 | the inner loop tags the chunks of one document with 0, 1, ..., n-1 in order |
| Chunker.ChunkDocuments | services/api/chunker.py:189-196 | `chunk_documents` returns exactly the specified tagged chunks, document after document |
| Chunker.ChunksPrefix | services/api/chunker.py:195 | the chunks of the first j documents are a prefix of the whole output |
| Chunker.ChunkAt | services/api/chunker.py:189-195 | chunk i of document j sits right after the earlier documents' chunks, with its content and `chunk_index` = i |
| Chunker.ChunkOrigin | services/api/chunker.py:189-195 | every output chunk falls among the chunks of some input document |
| Chunker.ChunkCount | services/api/chunker.py:195 | each document adds exactly as many chunks as the splitter gives it |
| Chunker.ChunkIndexOfPosition | services/api/chunker.py:192-194 | an output chunk is its document's chunk at the same offset, with `chunk_index` set to that offset and nothing else changed |
| Chunker.ChunkMetadataCopied | services/api/chunker.py:193 | when the splitter copies a document's metadata onto its chunks, every output chunk of that document carries it, `chunk_index` apart |
| LangchainStore.MetaOr | services/api/vectorstore_langchain.py:43-45 | `md.get(k) or default` is the stored value when it is truthy and the default otherwise, so a truthy default always gives a truthy value |
| LangchainStore.IdPartsNonEmpty | services/api/vectorstore_langchain.py:43-46 | no part of a chunk id is empty, given that `str` of a float is never empty: falsy parts fall back to "UNKNOWN", "misc" and 0 |
| LangchainStore.WithoutRemovesMatches | services/api/vectorstore_langchain.py:40 | deleting where a metadata key equals a value removes exactly the matching entries and leaves the others unchanged |
| LangchainStore.PurgedStep | services/api/vectorstore_langchain.py:38-41 | one more property id deletes its entries, unless that delete fails and is swallowed |
| LangchainStore.AddedKeys | services/api/vectorstore_langchain.py:49 | after `add_texts` the ids are the old ones plus the new ones, and untouched entries are unchanged |
| LangchainStore.AddedLast | services/api/vectorstore_langchain.py:49 | the last chunk given under an id is the one stored under it |
| LangchainStore.Collection.AddTexts | services/api/vectorstore_langchain.py:49 | `add_texts` stores the given chunks over the old entries |
| LangchainStore.Collection.UpsertPropertyDocs | services/api/vectorstore_langchain.py:33-51 | returns the number of chunks and of distinct truthy property ids; the new store deletes each such property's entries (failures swallowed) and then adds the chunks |
| LangchainStore.Collection.DeleteProperty | services/api/vectorstore_langchain.py:53-60 | as written: deletes entries whose `id` metadata matches, returning 1, or changes nothing and returns 0 when the delete raises |
| LangchainStore.Collection.DeletePropertyByPid | services/api/vectorstore_langchain.py:53-60 | corrected: deletes entries whose `property_id` matches, with the same return values |
| LangchainStore.ChunkIdSplits | services/api/vectorstore_langchain.py:43-46 | when no part holds a colon, splitting a chunk id `pid::section::idx` at its colons gives back the property, the section and the index, with empty pieces between them |
| LangchainStore.ChunkIdInjective | services/api/vectorstore_langchain.py:43-46 | chunks with colon-free parts share an id only when they share property, section and index |
| LangchainStore.BatchOf | services/api/vectorstore_langchain.py:42-48 | the loop builds one id, text and metadata dict per chunk, in order |
| LangchainStore.UpsertStoresChunk | services/api/vectorstore_langchain.py:42-49 | each chunk not overridden by a later one with the same id is stored under its id with its text and metadata |
| LangchainStore.UpsertKeepsOthers | services/api/vectorstore_langchain.py:36-41 | an entry not among the new ids survives exactly when its property is not being replaced (or that delete failed), unchanged |
| LangchainStore.UpsertAddsOnlyChunks | services/api/vectorstore_langchain.py:49 | after the upsert every id is an old id or a chunk's id |
| LangchainStore.DeleteByIdMissesChunks | services/api/vectorstore_langchain.py:56 | when no stored chunk has an `id` metadata key, deleting by `id` changes nothing |
| LangchainStore.DeletePropertyLeavesChunk | services/api/vectorstore_langchain.py:56 | a store holding chunk `P1::description::0` of property P1 still holds it after deleting P1 by `id` |
| LangchainStore.DeleteByPidRemovesProperty | services/api/vectorstore_langchain.py:56 | deleting by `property_id` removes exactly that property's entries |
| LangchainStore.HardWhereIsTypeFilter | services/api/vectorstore_langchain.py:64-66 | the store filter is set exactly when `property_type` is truthy, and then holds only the lowercased type |
| LangchainStore.CheckFilters | services/api/vectorstore_langchain.py:81-91 | the `ok &=` steps compute exactly whether a candidate passes every active filter |
| LangchainStore.SearchProperties | services/api/vectorstore_langchain.py:62-102 | the results are the specified ones over the store's answer for `top_k * 5` candidates under the hard filter |
| LangchainStore.FilterCandidates | services/api/vectorstore_langchain.py:73-102 | the post-filtering loop keeps, in candidate order, the hits that pass the soft filters, and stops at `max(top_k, 1)` of them |
| LangchainStore.ResultsSelect | services/api/vectorstore_langchain.py:79-101 | at most `max(top_k, 1)` results, since the check follows the append. Each result comes from a passing candidate, in candidate order, with its id, score, metadata and text. Fewer results means every passing candidate is there |
| LangchainStore.TypeFilterExact | services/api/vectorstore_langchain.py:82-83 | with a type requested, a passing chunk has that type, compared lowercased and exactly |
| LangchainStore.LocationFilterSubstring | services/api/vectorstore_langchain.py:84-85 | with a location requested, a passing chunk has a location containing it, case-insensitively |
| LangchainStore.EmptyRequestsIgnored | services/api/vectorstore_langchain.py:74-75 | a falsy location or type request filters nothing |
| LangchainStore.UnreadableNumbersIgnored | services/api/vectorstore_langchain.py:86-91 | a bedrooms or budget request that `float()` cannot read filters nothing |
| LangchainStore.MissingBedroomsCountAsZero | services/api/vectorstore_langchain.py:87 | a chunk without bedrooms passes exactly when the request is at most 1e-6 |
| LangchainStore.MissingPriceCountsAsHuge | services/api/vectorstore_langchain.py:90 | a chunk without a price passes exactly when the budget is at least 1e12 - 1e-6 |
| VectorStore.FlattenProperty | services/api/vectorstore.py:69-90 | the field loop builds exactly the specified text, or fails where `_meta` is not a dict |
| VectorStore.TextPartsInOrder | services/api/vectorstore.py:72-89 | the parts are the truthy fields in the fixed order, then the meta line |
| VectorStore.PropertyTextLines | services/api/vectorstore.py:90 | with newline-free parts, splitting the text at newlines gives the parts back |
| VectorStore.PropertyTextFails | services/api/vectorstore.py:83-88 | building the text fails exactly when `_meta` is present and not a dict |
| VectorStore.AddTouchesOnlyItsId | services/api/vectorstore.py:97-100 | an upsert stores the text and `_meta` under `doc["id"]` and leaves every other entry as it was |
| VectorStore.AddIdempotent | services/api/vectorstore.py:92-100 | upserting the same record twice leaves the store as upserting it once |
| VectorStore.DeleteUndoesAdd | services/api/vectorstore.py:97-105 | an upsert followed by a delete of the same id leaves the rest of the store as before |
| VectorStore.Collection.AddOrUpdate | services/api/vectorstore.py:92-100 | the store becomes the specified upsert result, or is unchanged when the upsert raises |
| VectorStore.Collection.Delete | services/api/vectorstore.py:103-105 | the entry under the id is removed and nothing else changes |
| VectorStore.CheckFilters | services/api/vectorstore.py:119-131 | the `ok &=` steps compute exactly whether a candidate passes every active filter |
| VectorStore.Search | services/api/vectorstore.py:108-141 | the results are the specified ones over the store's answer for `top_k` candidates |
| VectorStore.SearchSelects | services/api/vectorstore.py:115-140 | at most `max(top_k, 1)` results, each a passing candidate in query order scored `1 - distance`. Fewer results means every passing candidate is there |
| VectorStore.TypeFilterIsSubstring | services/api/vectorstore.py:122-123 | a passing entry's type contains the requested type, case-insensitively |
| VectorStore.WholeBedroomsCompareExactly | services/api/vectorstore.py:124-127 | with whole numbers the 0.1 slack makes no difference: a passing entry has at least the requested bedrooms |
| VectorStore.InactiveFiltersPass | services/api/vectorstore.py:119-131 | with no active filter every entry passes |
| VectorStore.CheckMessageFilters | services/api/vectorstore.py:44-49 | the filter loop computes exactly whether every non-None filter value occurs in its field |
| VectorStore.SearchMessages | services/api/vectorstore.py:36-52 | the results are the specified ones over the store's answer for `top_k * 2` candidates |
| VectorStore.MessageSearchSelects | services/api/vectorstore.py:42-51 | at most `max(top_k, 1)` results, each a matching candidate in query order. Fewer results means every matching candidate is there |
| VectorStore.UnfilteredMessages | services/api/vectorstore.py:44-51 | without filters there are as many results as candidates, up to `max(top_k, 1)` |
| Actions.ValidateTextAccepts | rasa-bot/actions/actions.py:65-81 | a text slot accepts exactly a non-empty string whose stripped length meets the minimum. It is set to a stripped piece of the input of at least that length |
| Actions.ValidateTextIdempotent | rasa-bot/actions/actions.py:119-123 | with a minimum of at least 1, validating an accepted text again accepts it unchanged |
| Actions.NormalType | rasa-bot/actions/actions.py:84 | each valid type is its own normal form |
| Actions.ValidTypeAccepted | rasa-bot/actions/actions.py:14 | each of the five valid types, given as it is, is accepted unchanged |
| Actions.UpperCaseTypeAccepted | rasa-bot/actions/actions.py:83-86 | case does not matter: "NHÀ Ở" is accepted as the valid type "nhà ở" |
| Actions.ValidatePropertyTypeIdempotent | rasa-bot/actions/actions.py:83-88 | an accepted type is a valid type, and validating it again accepts it unchanged |
| Actions.FirstDigitAt | rasa-bot/actions/actions.py:100 | the position of the first digit, None exactly when the text has no digit |
| Actions.FirstDigitsIsLeftmostRun | rasa-bot/actions/actions.py:100 | `(\d+)` matches exactly when the text holds a digit, and the match is the leftmost maximal run of digits |
| Actions.FirstNumberExtendsDigits | rasa-bot/actions/actions.py:113 | `(\d+(?:\.\d+)?)` matches where `(\d+)` does, and extends its match by at most a dot and digits |
| Actions.NumberValueNonNegative | rasa-bot/actions/actions.py:115 | a number read from text is never negative |
| Actions.BedroomsUnreadableRaises | rasa-bot/actions/actions.py:91-97 | as written, a value `float()` cannot read makes the validator raise; the corrected one reads the message |
| Actions.BedroomsNoneExample | rasa-bot/actions/actions.py:97 | for a None value after the message "2", the validator as written raises, while the corrected one sets 2 |
| Actions.ValidateBedroomsSpec | rasa-bot/actions/actions.py:90-104 | the corrected validator never raises, agrees with the original wherever `float(value)` succeeds, and sets either a value strictly between 0 and 10 or the first digit run of the message |
| Actions.ValidatePriceSpec | rasa-bot/actions/actions.py:106-117 | a positive readable value is taken as it is. Otherwise the price is the value of the first number of the comma-free message. It is None exactly when neither exists, and it is never negative |
| Actions.PriceWithCommas | rasa-bot/actions/actions.py:112-115 | the message "1,500" sets the price to 1500 |
| Actions.ValidateBudgetSpec | rasa-bot/actions/actions.py:202-219 | a budget is accepted exactly when it reads as a positive number and is that number; a non-zero extracted budget is accepted back |
| Actions.CleanFilters | rasa-bot/actions/actions.py:236 | the comprehension keeps exactly the specified entries, in order |
| Actions.CleanFiltersKeeps | rasa-bot/actions/actions.py:236 | the kept entries are exactly those whose value is neither None nor `""`, in their original order and unchanged |
| Actions.ZeroKept | rasa-bot/actions/actions.py:229-236 | bedrooms 0 survives the cleaning where None and `""` slots do not |
| Actions.DescriptionCut | rasa-bot/actions/actions.py:258-259 | a stripped description longer than 180 characters becomes its first 180 plus `…`; a shorter one is kept |
| Actions.RenderLines | rasa-bot/actions/actions.py:252-260 | the render loop builds exactly one line per result, in order, or fails where a result's description is not text |
| Actions.RenderedLines | rasa-bot/actions/actions.py:253-260 | rendering succeeds exactly when every description is a string or falsy, and then line i is the rendering of result i |

## Left out

- The embedding models and the Chroma and LangChain clients are left out: `similarity_search_with_score`, `query`, `persist` and the model loading. Queries are function parameters, and each store is a map from id to text and metadata.
- `RecursiveCharacterTextSplitter` is left out. `Chunker.ChunkDocuments` takes the splitter as a function, and only the numbering of its pieces is modelled.
- Floats are reals. IEEE rounding, `inf` and `nan` are not modelled. Python's `float()` string grammar, `str(float)`, `json.dumps` and `str` of a dict or list are functions in `Values.Builtins`.
- Text.Lower: folds the ASCII and Latin-1 capitals, Latin Extended-A, the regular runs of Latin Extended-B (including Vietnamese Ơ and Ư) and Latin Extended Additional, plus Ÿ and ẞ. `İ` is left as it is, because Python lowers it to two characters. So are the irregular Latin Extended-B capitals and capitals of other scripts. For those, `validate_property_type` and the case-insensitive location and type filters differ from Python.
- NoiseFilter.SuffixMatch: compares through `Text.Lower`. Under `re.I`, Python also lets `İ` and `ı` match `i`, `ſ` match `s` and the Kelvin sign match `k`. Such key-paths are not treated as noise here.
- Chunker.DocumentLinesRoundTrip: leaf texts are stripped only at their ends. A value with a newline inside spreads over several lines of the document, so the round trip holds only when no path or value holds a newline.
- Flattener.FlattenPairsClean: the paths on the way down are the ones the walk visits, built from keys and indices. A key holding a dot, such as `code.name` under `misc`, yields `misc.code.name`, although the string prefix `misc.code` would be noise on its own.
- NoiseFilter.IsLetter: models `\w` as ASCII plus the Latin-1, Latin Extended and Latin Extended Additional letters. Other scripts count as non-letters. `\d` is the ASCII digits only.
- Chunker.FirstNonEmpty: handles dotted key-paths only. The bracketed `name[i]` branch of `get_path` is unused by the candidate paths and is not modelled.
- LangchainStore.Collection.AddTexts: a later chunk with the same id overwrites an earlier one. Chroma's own treatment of duplicate ids within one batch is not modelled.
- Sets of metadata values compare by the model's own equality. Python's `1 == 1.0 == True` identification among property ids is not modelled.
- The debug prints, `inspect_collection`, `add_message_embedding`, `embed_text` and the dispatcher messages have no effect on the modelled results and are left out. The prints include `print(v)` in `validate_bedrooms`, except for its unbound-variable failure, which is modelled.
- `natural_search`, which `ActionSearchProperties.run` calls, is not part of this model. The rendering takes its results' metadata as input.
- The other actions are not modelled: `ActionEmbedProperty`, `ActionAIRephrase` and `ActionInitializeConversation`. They post to HTTP services, call an LLM, or only set slots from `get_persona_defaults()`, which is not part of this model.
- JSON objects are assumed to have distinct keys. `Values.Get` returns the first pair with a key, and `Flattener.Walk` visits every pair. `json.loads` instead keeps only the last value of a repeated key.
- `services/api/server.py`, `models.py`, `schemas.py`, `seed_demo.py` and `rasa-bot/custom_components/message_sink.py` are transport, persistence and seed data, and are not part of this model.
- Concurrent upserts are not modelled, in particular the window between the delete and the insert of `upsert_property_docs`.

## Findings

| source | as written | input that shows it | evidently intended | confidence | as-written member | corrected member |
|---|---|---|---|---|---|---|
| services/api/chunker.py:205-209 | a section with a non-empty allowlist rejects every path that does not start with an allowed prefix, including the section's own root path, where `_flatten` starts | a record whose `design_and_layout` is `{"location": "Thao Dien riverside apartment"}`: no document is produced for that section | paths on the way down to an allowed prefix are kept, so the allowed keys of `design_and_layout` and `legal_and_product_status` get indexed | high; not executed | Chunker.NoAllowlistedSectionDocuments | Chunker.IntendedDesignLocationDocument |
| services/api/vectorstore_langchain.py:56 | `delete_property` deletes entries whose metadata `id` equals the property id, but chunks carry `property_id` and no `id` | a store holding chunk `P1::description::0` with `property_id` "P1"; `delete_property("P1")` returns 1 and the chunk stays | delete where `property_id` matches | high; not executed | LangchainStore.DeletePropertyLeavesChunk | LangchainStore.DeleteByPidRemovesProperty |
| rasa-bot/actions/actions.py:91-97 | when `float(value)` raises, `print(v)` reads the unbound `v`, so the validator raises instead of reading the message | value None with latest message "2" | fall back to the digits of the message and set bedrooms to 2 | high; not executed | Actions.BedroomsNoneExample | Actions.ValidateBedroomsSpec |
