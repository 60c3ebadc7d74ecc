/**
 * services/api/vectorstore_langchain.py: the property chunks kept in a Chroma collection
 * behind LangChain. `upsert_property_docs` replaces the chunks of the properties it is
 * given, `delete_property` removes a property, and `search_properties` post-filters the
 * nearest chunks by type, location, bedrooms and budget.
 *
 * The collection is a map from chunk id to stored text and metadata. The embedding
 * search itself is a parameter: it is handed the query, the number of candidates and
 * the in-store filter, and gives back the candidates, nearest first, with their scores.
 */
module LangchainStore {
  import opened Wrappers
  import opened Values
  import opened Text
  import opened Seqs
  import opened Chunker

  // ---------------------------------------------------------------------------
  // Metadata values as Python sees them

  /** `str(m)` (also what f-string interpolation gives). */
  function MetaText(py: Builtins, m: Meta): string
  {
    match m
    case MStr(s) => s
    case MNum(x) => py.floatStr(x)
    case MInt(n) => IntToString(n)
  }

  /** Python truthiness of a metadata value. */
  predicate MetaTruthy(m: Meta)
  {
    match m
    case MStr(s) => s != ""
    case MNum(x) => x != 0.0
    case MInt(n) => n != 0
  }

  /** `float(m)`; None where Python raises ValueError. */
  function MetaFloat(py: Builtins, m: Meta): Option<real>
  {
    match m
    case MStr(s) => py.floatParse(s)
    case MNum(x) => Some(x)
    case MInt(n) => Some(n as real)
  }

  /**
   * `md.get(k) or default`: the stored value when it is truthy, the default otherwise,
   * so a truthy default always gives a truthy value.
   */
  function MetaOr(md: map<string, Meta>, k: string, default: Meta): (r: Meta)
    ensures k in md && MetaTruthy(md[k]) ==> r == md[k]
    ensures !(k in md && MetaTruthy(md[k])) ==> r == default
    ensures MetaTruthy(default) ==> MetaTruthy(r)
  {
    if k in md && MetaTruthy(md[k]) then md[k] else default
  }

  // ---------------------------------------------------------------------------
  // The store

  /** A stored chunk: its text and its metadata. */
  datatype Entry = Entry(text: string, metadata: map<string, Meta>)

  /** The entries left after `delete(where={key: value})`. */
  function Without(entries: map<string, Entry>, key: string, value: Meta): map<string, Entry>
  {
    map id | id in entries && !(key in entries[id].metadata && entries[id].metadata[key] == value) :: entries[id]
  }

  /** Deleting where `key` equals `value` removes exactly the entries that match and keeps the rest as they were. */
  lemma WithoutRemovesMatches(entries: map<string, Entry>, key: string, value: Meta, id: string)
    ensures id in Without(entries, key, value) <==>
      id in entries && !(key in entries[id].metadata && entries[id].metadata[key] == value)
    ensures id in Without(entries, key, value) ==> Without(entries, key, value)[id] == entries[id]
  {
  }

  /** Whether the per-property delete of `upsert_property_docs` removes this entry. */
  predicate Doomed(e: Entry, pids: set<Meta>, fails: Meta -> bool)
  {
    "property_id" in e.metadata && e.metadata["property_id"] in pids && !fails(e.metadata["property_id"])
  }

  /**
   * The entries left after deleting by `property_id` for every value in `pids`, where the
   * delete for a value `p` raises, and so removes nothing, exactly when `fails(p)`.
   */
  function Purged(entries: map<string, Entry>, pids: set<Meta>, fails: Meta -> bool): map<string, Entry>
  {
    map id | id in entries && !Doomed(entries[id], pids, fails) :: entries[id]
  }

  /** One more delete by `property_id` purges one more value, unless it raises. */
  lemma PurgedStep(entries: map<string, Entry>, done: set<Meta>, pid: Meta, fails: Meta -> bool)
    ensures Purged(entries, done + {pid}, fails) ==
      if fails(pid) then Purged(entries, done, fails) else Without(Purged(entries, done, fails), "property_id", pid)
  {
  }

  /** The entries after `add_texts(texts, metadatas, ids)`: each id is set in turn, so a later one wins. */
  function Added(entries: map<string, Entry>, ids: seq<string>, texts: seq<string>, metas: seq<map<string, Meta>>)
    : map<string, Entry>
    requires |ids| == |texts| == |metas|
  {
    if ids == [] then entries
    else
      var n := |ids| - 1;
      Added(entries, ids[..n], texts[..n], metas[..n])[ids[n] := Entry(texts[n], metas[n])]
  }

  /** After adding, exactly the old ids and the new ids are present. */
  lemma {:induction false} AddedKeys(entries: map<string, Entry>, ids: seq<string>, texts: seq<string>,
                                     metas: seq<map<string, Meta>>, id: string)
    requires |ids| == |texts| == |metas|
    ensures id in Added(entries, ids, texts, metas) <==> id in entries || id in ids
    ensures id !in ids && id in entries ==> Added(entries, ids, texts, metas)[id] == entries[id]
  {
    if ids != [] {
      var n := |ids| - 1;
      AddedKeys(entries, ids[..n], texts[..n], metas[..n], id);
      assert id in ids <==> id in ids[..n] || id == ids[n];
    }
  }

  /** An id is stored with the text and metadata given at its last position in the batch. */
  lemma {:induction false} AddedLast(entries: map<string, Entry>, ids: seq<string>, texts: seq<string>,
                                     metas: seq<map<string, Meta>>, j: int)
    requires |ids| == |texts| == |metas|
    requires 0 <= j < |ids| && forall j2 | j < j2 < |ids| :: ids[j2] != ids[j]
    ensures ids[j] in Added(entries, ids, texts, metas)
    ensures Added(entries, ids, texts, metas)[ids[j]] == Entry(texts[j], metas[j])
  {
    var n := |ids| - 1;
    if j < n {
      AddedLast(entries, ids[..n], texts[..n], metas[..n], j);
    }
  }

  /** A Chroma collection holding property chunks, as LangChain's `Chroma` wrapper opens it. */
  class Collection {
    var entries: map<string, Entry>

    constructor ()
      ensures entries == map[]
    {
      entries := map[];
    }

    /**
     * `_collection.delete(where={key: value})`. `fails` stands for the store raising,
     * in which case nothing is removed.
     */
    method DeleteWhere(key: string, value: Meta, fails: bool)
      modifies this
      ensures entries == if fails then old(entries) else Without(old(entries), key, value)
    {
      if !fails {
        entries := Without(entries, key, value);
      }
    }

    /** `add_texts(texts, metadatas, ids)`, one id after the other. */
    method AddTexts(ids: seq<string>, texts: seq<string>, metas: seq<map<string, Meta>>)
      requires |ids| == |texts| == |metas|
      modifies this
      ensures entries == Added(old(entries), ids, texts, metas)
    {
      for i := 0 to |ids|
        invariant entries == Added(old(entries), ids[..i], texts[..i], metas[..i])
      {
        assert ids[..i + 1][..i] == ids[..i];
        assert texts[..i + 1][..i] == texts[..i];
        assert metas[..i + 1][..i] == metas[..i];
        entries := entries[ids[i] := Entry(texts[i], metas[i])];
      }
      assert ids[..|ids|] == ids && texts[..|texts|] == texts && metas[..|metas|] == metas;
    }

    /**
     * `upsert_property_docs(chunks)`: delete the stored chunks of every property among
     * `chunks` (a delete that raises is skipped), add every chunk under its id, and
     * return the number of chunks and the number of distinct properties.
     * `deleteFails(p)` says whether the delete by `property_id == p` raises.
     */
    method UpsertPropertyDocs(py: Builtins, chunks: seq<Document>, deleteFails: Meta -> bool)
      returns (count: int, properties: int)
      modifies this
      ensures count == |chunks| && properties == |PropertyIds(chunks)|
      ensures entries == Upserted(py, old(entries), chunks, deleteFails)
    {
      var pids := PropertyIds(chunks);
      var todo := pids;
      while todo != {}
        invariant todo <= pids
        invariant entries == Purged(old(entries), pids - todo, deleteFails)
        decreases todo
      {
        var pid :| pid in todo;
        PurgedStep(old(entries), pids - todo, pid, deleteFails);
        assert (pids - todo) + {pid} == pids - (todo - {pid});
        DeleteWhere("property_id", pid, deleteFails(pid));
        todo := todo - {pid};
      }
      assert pids - todo == pids;
      var ids, texts, metas := BatchOf(py, chunks);
      AddTexts(ids, texts, metas);
      count := |ids|;
      properties := |pids|;
    }

    /**
     * `delete_property(property_id)` as written: it deletes where the metadata key `id`
     * equals the given value and returns 1, or 0 when the store raises.
     */
    method DeleteProperty(propertyId: string, fails: bool) returns (r: int)
      modifies this
      ensures r == if fails then 0 else 1
      ensures entries == if fails then old(entries) else Without(old(entries), "id", MStr(propertyId))
    {
      DeleteWhere("id", MStr(propertyId), fails);
      r := if fails then 0 else 1;
    }

    /** `delete_property` deleting by the `property_id` key that the stored chunks carry. */
    method DeletePropertyByPid(propertyId: string, fails: bool) returns (r: int)
      modifies this
      ensures r == if fails then 0 else 1
      ensures entries == if fails then old(entries) else Without(old(entries), "property_id", MStr(propertyId))
    {
      DeleteWhere("property_id", MStr(propertyId), fails);
      r := if fails then 0 else 1;
    }
  }

  // ---------------------------------------------------------------------------
  // upsert_property_docs

  /** The distinct truthy `property_id` values among the chunks. */
  function PropertyIds(chunks: seq<Document>): set<Meta>
  {
    set i | 0 <= i < |chunks| && "property_id" in chunks[i].metadata && MetaTruthy(chunks[i].metadata["property_id"])
      :: chunks[i].metadata["property_id"]
  }

  /** The three parts of a chunk id: property, section and chunk index, with their defaults. */
  function IdParts(py: Builtins, md: map<string, Meta>): seq<string>
  {
    [MetaText(py, MetaOr(md, "property_id", MStr("UNKNOWN"))),
     MetaText(py, MetaOr(md, "section", MStr("misc"))),
     MetaText(py, MetaOr(md, "chunk_index", MInt(0)))]
  }

  /**
   * No part of a chunk id is empty, given that `str` of a float is never empty: a missing
   * or falsy property and section fall back to the truthy "UNKNOWN" and "misc", and a
   * missing index to 0, which renders as "0".
   */
  lemma IdPartsNonEmpty(py: Builtins, md: map<string, Meta>)
    requires forall x: real :: py.floatStr(x) != ""
    ensures forall k | 0 <= k < 3 :: IdParts(py, md)[k] != ""
  {
    var idx := MetaOr(md, "chunk_index", MInt(0));
    if idx.MInt? {
      assert |IntToString(idx.n)| >= 1;
    }
  }

  /** The chunk id `pid::section::idx`. */
  function ChunkId(py: Builtins, md: map<string, Meta>): string
  {
    var p := IdParts(py, md);
    p[0] + "::" + p[1] + "::" + p[2]
  }

  /** Splitting a chunk id at its colons gives back its parts when none of them holds a colon. */
  lemma ChunkIdSplits(py: Builtins, md: map<string, Meta>)
    requires forall k | 0 <= k < 3 :: ':' !in IdParts(py, md)[k]
    ensures Split(ChunkId(py, md), ':') == [IdParts(py, md)[0], "", IdParts(py, md)[1], "", IdParts(py, md)[2]]
  {
    var p := IdParts(py, md);
    var parts := [p[0], "", p[1], "", p[2]];
    assert parts[..2][..1] == [p[0]];
    assert parts[..3][..2] == parts[..2];
    assert parts[..4][..3] == parts[..3];
    assert parts[..4] == [p[0], "", p[1], ""];
    assert Join([':'], parts[..2]) == p[0] + ":";
    assert Join([':'], parts[..3]) == p[0] + ":" + ":" + p[1];
    assert Join([':'], parts[..4]) == p[0] + ":" + ":" + p[1] + ":";
    assert Join([':'], parts) == p[0] + ":" + ":" + p[1] + ":" + ":" + p[2];
    assert Join([':'], parts) == ChunkId(py, md);
    SplitJoin(parts, ':');
  }

  /** Chunks with colon-free id parts share an id only when they share property, section and index. */
  lemma ChunkIdInjective(py: Builtins, a: map<string, Meta>, b: map<string, Meta>)
    requires forall k | 0 <= k < 3 :: ':' !in IdParts(py, a)[k]
    requires forall k | 0 <= k < 3 :: ':' !in IdParts(py, b)[k]
    requires ChunkId(py, a) == ChunkId(py, b)
    ensures IdParts(py, a) == IdParts(py, b)
  {
    ChunkIdSplits(py, a);
    ChunkIdSplits(py, b);
    var sa := Split(ChunkId(py, a), ':');
    assert IdParts(py, a) == [sa[0], sa[2], sa[4]];
  }

  /** The ids, texts and metadata dicts handed to `add_texts`, one per chunk. */
  function Ids(py: Builtins, chunks: seq<Document>): (r: seq<string>)
    ensures |r| == |chunks|
  {
    seq(|chunks|, i requires 0 <= i < |chunks| => ChunkId(py, chunks[i].metadata))
  }

  function Texts(chunks: seq<Document>): (r: seq<string>)
    ensures |r| == |chunks|
  {
    seq(|chunks|, i requires 0 <= i < |chunks| => chunks[i].content)
  }

  function Metas(chunks: seq<Document>): (r: seq<map<string, Meta>>)
    ensures |r| == |chunks|
  {
    seq(|chunks|, i requires 0 <= i < |chunks| => chunks[i].metadata)
  }

  /** The loop that builds the `ids`, `texts` and `metas` lists. */
  method BatchOf(py: Builtins, chunks: seq<Document>)
    returns (ids: seq<string>, texts: seq<string>, metas: seq<map<string, Meta>>)
    ensures ids == Ids(py, chunks) && texts == Texts(chunks) && metas == Metas(chunks)
  {
    ids, texts, metas := [], [], [];
    for i := 0 to |chunks|
      invariant ids == Ids(py, chunks[..i]) && texts == Texts(chunks[..i]) && metas == Metas(chunks[..i])
    {
      var d := chunks[i];
      ids := ids + [ChunkId(py, d.metadata)];
      texts := texts + [d.content];
      metas := metas + [d.metadata];
    }
    assert chunks[..|chunks|] == chunks;
  }

  /** The store after `upsert_property_docs(chunks)`. */
  function Upserted(py: Builtins, entries: map<string, Entry>, chunks: seq<Document>, deleteFails: Meta -> bool)
    : map<string, Entry>
  {
    Added(Purged(entries, PropertyIds(chunks), deleteFails), Ids(py, chunks), Texts(chunks), Metas(chunks))
  }

  /** Every chunk is stored under its id, holding the last chunk given that id. */
  lemma UpsertStoresChunk(py: Builtins, entries: map<string, Entry>, chunks: seq<Document>,
                          deleteFails: Meta -> bool, j: int)
    requires 0 <= j < |chunks|
    requires forall j2 | j < j2 < |chunks| :: ChunkId(py, chunks[j2].metadata) != ChunkId(py, chunks[j].metadata)
    ensures ChunkId(py, chunks[j].metadata) in Upserted(py, entries, chunks, deleteFails)
    ensures Upserted(py, entries, chunks, deleteFails)[ChunkId(py, chunks[j].metadata)]
         == Entry(chunks[j].content, chunks[j].metadata)
  {
    var ids := Ids(py, chunks);
    assert forall j2 | j < j2 < |ids| :: ids[j2] != ids[j];
    AddedLast(Purged(entries, PropertyIds(chunks), deleteFails), ids, Texts(chunks), Metas(chunks), j);
  }

  /**
   * A stored entry that no new chunk overwrites survives the upsert, unchanged, exactly
   * when it does not belong to one of the upserted properties or the delete for its
   * property raised.
   */
  lemma UpsertKeepsOthers(py: Builtins, entries: map<string, Entry>, chunks: seq<Document>,
                          deleteFails: Meta -> bool, id: string)
    requires id in entries && id !in Ids(py, chunks)
    ensures id in Upserted(py, entries, chunks, deleteFails) <==> !Doomed(entries[id], PropertyIds(chunks), deleteFails)
    ensures id in Upserted(py, entries, chunks, deleteFails) ==> Upserted(py, entries, chunks, deleteFails)[id] == entries[id]
  {
    AddedKeys(Purged(entries, PropertyIds(chunks), deleteFails), Ids(py, chunks), Texts(chunks), Metas(chunks), id);
  }

  /** Nothing but the old entries and the new chunks is stored after an upsert. */
  lemma UpsertAddsOnlyChunks(py: Builtins, entries: map<string, Entry>, chunks: seq<Document>,
                             deleteFails: Meta -> bool, id: string)
    requires id in Upserted(py, entries, chunks, deleteFails)
    ensures id in entries || id in Ids(py, chunks)
  {
    AddedKeys(Purged(entries, PropertyIds(chunks), deleteFails), Ids(py, chunks), Texts(chunks), Metas(chunks), id);
  }

  // ---------------------------------------------------------------------------
  // delete_property

  /**
   * Deleting by `id` removes nothing from a store whose chunks carry no `id` key in their
   * metadata, as the chunks built from property records do.
   */
  lemma DeleteByIdMissesChunks(entries: map<string, Entry>, propertyId: string)
    requires forall id | id in entries :: "id" !in entries[id].metadata
    ensures Without(entries, "id", MStr(propertyId)) == entries
  {
  }

  /** A store holding one chunk of property P1, as `upsert_property_docs` leaves it. */
  function OneChunkStore(): map<string, Entry>
  {
    map["P1::description::0" := Entry("[description] x", map["property_id" := MStr("P1")])]
  }

  /** `delete_property("P1")` as written reports success and leaves P1's chunk in place. */
  lemma DeletePropertyLeavesChunk()
    ensures "P1::description::0" in Without(OneChunkStore(), "id", MStr("P1"))
  {
    DeleteByIdMissesChunks(OneChunkStore(), "P1");
  }

  /** Deleting by `property_id` leaves no chunk of that property and every other chunk untouched. */
  lemma DeleteByPidRemovesProperty(entries: map<string, Entry>, propertyId: string)
    ensures forall id | id in Without(entries, "property_id", MStr(propertyId)) ::
      !("property_id" in entries[id].metadata && entries[id].metadata["property_id"] == MStr(propertyId))
    ensures forall id | id in entries && !("property_id" in entries[id].metadata && entries[id].metadata["property_id"] == MStr(propertyId)) ::
      id in Without(entries, "property_id", MStr(propertyId))
  {
  }

  // ---------------------------------------------------------------------------
  // search_properties

  /** The tolerance of the bedrooms and budget comparisons, 1e-6. */
  const Tolerance: real := 0.000001

  /** The price assumed for a chunk without one, 1e12. */
  const NoPrice: real := 1000000000000.0

  /** `filters.get(k) or ""`, rendered and lowercased. */
  function Requested(py: Builtins, filters: seq<(string, Value)>, k: string): string
  {
    Lower(ToStr(py, Or(GetOr(filters, k, Null), Str(""))))
  }

  /** The in-store filter: `{"property_type": str(t).lower()}` when a type `t` is given, else none. */
  function HardWhere(py: Builtins, filters: seq<(string, Value)>): Option<map<string, string>>
  {
    var t := GetOr(filters, "property_type", Null);
    if Truthy(t) then Some(map["property_type" := Lower(ToStr(py, t))]) else None
  }

  /**
   * The in-store filter is set exactly when a property type is given, and holds the same
   * lowercased text that the post-filter compares against.
   */
  lemma HardWhereIsTypeFilter(py: Builtins, filters: seq<(string, Value)>)
    ensures HardWhere(py, filters).Some? <==> Truthy(GetOr(filters, "property_type", Null))
    ensures HardWhere(py, filters).Some? ==>
      HardWhere(py, filters).value.Keys == {"property_type"} &&
      HardWhere(py, filters).value["property_type"] == Requested(py, filters, "property_type")
  {
  }

  /** The metadata text at `k`, `""` when missing, lowercased. */
  function Field(py: Builtins, md: map<string, Meta>, k: string): string
  {
    Lower(if k in md then MetaText(py, md[k]) else "")
  }

  /** The type filter: the lowercased metadata type equals the requested type. */
  predicate TypeOk(py: Builtins, filters: seq<(string, Value)>, md: map<string, Meta>)
  {
    Requested(py, filters, "property_type") != "" ==> Field(py, md, "property_type") == Requested(py, filters, "property_type")
  }

  /** The location filter: the requested location occurs in the lowercased metadata location. */
  predicate LocationOk(py: Builtins, filters: seq<(string, Value)>, md: map<string, Meta>)
  {
    Requested(py, filters, "location") != "" ==> Contains(Field(py, md, "location"), Requested(py, filters, "location"))
  }

  /** The bedrooms filter: at least the requested count, missing meaning 0; a parse failure passes. */
  predicate BedroomsOk(py: Builtins, filters: seq<(string, Value)>, md: map<string, Meta>)
  {
    var q := GetOr(filters, "bedrooms", Null);
    var have := MetaFloat(py, MetaOr(md, "bedrooms", MInt(0)));
    var want := PyFloat(py, q);
    q != Null && have.Some? && want.Some? ==> have.value >= want.value - Tolerance
  }

  /** The budget filter: at most the budget, missing price meaning 1e12; a parse failure passes. */
  predicate BudgetOk(py: Builtins, filters: seq<(string, Value)>, md: map<string, Meta>)
  {
    var q := GetOr(filters, "budget_max", Null);
    var have := MetaFloat(py, MetaOr(md, "price", MNum(NoPrice)));
    var want := PyFloat(py, q);
    q != Null && have.Some? && want.Some? ==> have.value <= want.value + Tolerance
  }

  /** A candidate passes every active filter. */
  predicate Passes(py: Builtins, filters: seq<(string, Value)>, md: map<string, Meta>)
  {
    TypeOk(py, filters, md) && LocationOk(py, filters, md) && BedroomsOk(py, filters, md) && BudgetOk(py, filters, md)
  }

  /** A search result. */
  datatype Hit = Hit(id: string, score: real, metadata: map<string, Meta>, content: string)

  /** `str(md.get(k))`: `"None"` when missing. */
  function Shown(py: Builtins, md: map<string, Meta>, k: string): string
  {
    if k in md then MetaText(py, md[k]) else "None"
  }

  /** The result for a candidate chunk, keyed `property_id::section::chunk_index`. */
  function HitFor(py: Builtins, doc: Document, score: real): Hit
  {
    var md := doc.metadata;
    Hit(Shown(py, md, "property_id") + "::" + Shown(py, md, "section") + "::" + Shown(py, md, "chunk_index"),
        score, md, doc.content)
  }

  /** The result a candidate gives, if it passes the filters. */
  function Select(py: Builtins, filters: seq<(string, Value)>): ((Document, real)) -> Option<Hit>
  {
    (c: (Document, real)) => if Passes(py, filters, c.0.metadata) then Some(HitFor(py, c.0, c.1)) else None
  }

  /** The results of `search_properties` over the candidates returned by the store. */
  function Results(py: Builtins, filters: seq<(string, Value)>, topK: int, cands: seq<(Document, real)>): seq<Hit>
  {
    Take(Collect(Select(py, filters), cands), Cap(topK))
  }

  /** The `ok &= ...` steps of the loop body for one candidate's metadata `m`. */
  method CheckFilters(py: Builtins, filters: seq<(string, Value)>, qType: string, qLoc: string,
                      qBed: Value, qBudget: Value, m: map<string, Meta>)
    returns (ok: bool)
    requires qType == Requested(py, filters, "property_type") && qLoc == Requested(py, filters, "location")
    requires qBed == GetOr(filters, "bedrooms", Null) && qBudget == GetOr(filters, "budget_max", Null)
    ensures ok == Passes(py, filters, m)
  {
    ok := true;
    if qType != "" {
      ok := ok && Field(py, m, "property_type") == qType;
    }
    if qLoc != "" {
      ok := ok && Contains(Field(py, m, "location"), qLoc);
    }
    if qBed != Null {
      var have := MetaFloat(py, MetaOr(m, "bedrooms", MInt(0)));
      var want := PyFloat(py, qBed);
      if have.Some? && want.Some? {
        ok := ok && have.value >= want.value - Tolerance;
      }
    }
    if qBudget != Null {
      var have := MetaFloat(py, MetaOr(m, "price", MNum(NoPrice)));
      var want := PyFloat(py, qBudget);
      if have.Some? && want.Some? {
        ok := ok && have.value <= want.value + Tolerance;
      }
    }
  }

  /** One more candidate adds its result exactly when it passes the filters. */
  lemma ResultsStep(py: Builtins, filters: seq<(string, Value)>, cands: seq<(Document, real)>, i: int, ok: bool)
    requires 0 <= i < |cands| && ok == Passes(py, filters, cands[i].0.metadata)
    ensures Collect(Select(py, filters), cands[..i + 1])
         == Collect(Select(py, filters), cands[..i]) + if ok then [HitFor(py, cands[i].0, cands[i].1)] else []
  {
    CollectStep(Select(py, filters), cands, i);
  }

  /**
   * `search_properties(query, filters, top_k)`. `similar(query, k, where)` stands for the
   * store's similarity search for `k` candidates under the in-store filter `where`.
   */
  method SearchProperties(py: Builtins, similar: (string, int, Option<map<string, string>>) -> seq<(Document, real)>,
                          query: string, filters: seq<(string, Value)>, topK: int)
    returns (out: seq<Hit>)
    ensures out == Results(py, filters, topK, similar(query, topK * 5, HardWhere(py, filters)))
  {
    var hardWhere := HardWhere(py, filters);
    var cands := similar(query, topK * 5, hardWhere);
    out := FilterCandidates(py, filters, topK, cands);
  }

  /** The post-filtering loop of `search_properties` over the candidates the store returned. */
  method FilterCandidates(py: Builtins, filters: seq<(string, Value)>, topK: int, cands: seq<(Document, real)>)
    returns (out: seq<Hit>)
    ensures out == Results(py, filters, topK, cands)
  {
    out := [];
    var qLoc := Requested(py, filters, "location");
    var qType := Requested(py, filters, "property_type");
    var qBed := GetOr(filters, "bedrooms", Null);
    var qBudget := GetOr(filters, "budget_max", Null);
    for i := 0 to |cands|
      invariant out == Collect(Select(py, filters), cands[..i]) && |out| < Cap(topK)
    {
      var ok;
      ok, out := ConsiderCandidate(py, filters, qType, qLoc, qBed, qBudget, cands, i, out);
      if ok && |out| >= topK {
        CappedCollect(Select(py, filters), cands, i + 1, Cap(topK));
        break;
      }
    }
    assert cands[..|cands|] == cands;
  }

  /** The loop body of `search_properties` for candidate `i`: filter it, and append its result if it passes. */
  method ConsiderCandidate(py: Builtins, filters: seq<(string, Value)>, qType: string, qLoc: string,
                           qBed: Value, qBudget: Value, cands: seq<(Document, real)>, i: int, out: seq<Hit>)
    returns (ok: bool, out': seq<Hit>)
    requires qType == Requested(py, filters, "property_type") && qLoc == Requested(py, filters, "location")
    requires qBed == GetOr(filters, "bedrooms", Null) && qBudget == GetOr(filters, "budget_max", Null)
    requires 0 <= i < |cands| && out == Collect(Select(py, filters), cands[..i])
    ensures ok == Passes(py, filters, cands[i].0.metadata)
    ensures out' == if ok then out + [HitFor(py, cands[i].0, cands[i].1)] else out
    ensures out' == Collect(Select(py, filters), cands[..i + 1])
  {
    var (doc, score) := cands[i];
    ok := CheckFilters(py, filters, qType, qLoc, qBed, qBudget, doc.metadata);
    ResultsStep(py, filters, cands, i, ok);
    out' := if ok then out + [HitFor(py, doc, score)] else out;
  }

  /**
   * The results keep the candidates' order, each one made from a candidate that passes
   * every filter; there are at most `Cap(top_k)` of them, and fewer only when every
   * passing candidate is among them.
   */
  lemma ResultsSelect(py: Builtins, filters: seq<(string, Value)>, topK: int, cands: seq<(Document, real)>)
    ensures var r := Results(py, filters, topK, cands); var src := Sources(Select(py, filters), cands);
      && |r| <= Cap(topK) && |r| <= |src|
      && (forall k | 0 <= k < |r| ::
            Passes(py, filters, cands[src[k]].0.metadata) && r[k] == HitFor(py, cands[src[k]].0, cands[src[k]].1))
      && (|r| < Cap(topK) ==> forall j | 0 <= j < |cands| :: Passes(py, filters, cands[j].0.metadata) ==> j in src)
  {
    var f := Select(py, filters);
    TakeCollectSources(f, cands, Cap(topK));
    assert forall j | 0 <= j < |cands| :: f(cands[j]).Some? == Passes(py, filters, cands[j].0.metadata);
  }

  /** With a type requested, only chunks whose lowercased type equals it pass; a chunk without a type fails. */
  lemma TypeFilterExact(py: Builtins, filters: seq<(string, Value)>, md: map<string, Meta>)
    requires Requested(py, filters, "property_type") != ""
    ensures Passes(py, filters, md) ==>
      "property_type" in md && Lower(MetaText(py, md["property_type"])) == Requested(py, filters, "property_type")
  {
  }

  /** With a location requested, only chunks whose lowercased location contains it pass. */
  lemma LocationFilterSubstring(py: Builtins, filters: seq<(string, Value)>, md: map<string, Meta>)
    requires Requested(py, filters, "location") != ""
    ensures Passes(py, filters, md) ==>
      "location" in md && Contains(Lower(MetaText(py, md["location"])), Requested(py, filters, "location"))
  {
    NothingInEmpty(Requested(py, filters, "location"));
  }

  /** A non-empty text does not occur in the empty text. */
  lemma NothingInEmpty(q: string)
    requires q != ""
    ensures !Contains(Lower(""), q)
  {
  }

  /** An empty or missing location or type request filters nothing. */
  lemma EmptyRequestsIgnored(py: Builtins, filters: seq<(string, Value)>, md: map<string, Meta>)
    requires !Truthy(GetOr(filters, "location", Null)) && !Truthy(GetOr(filters, "property_type", Null))
    ensures TypeOk(py, filters, md) && LocationOk(py, filters, md)
  {
  }

  /** A bedrooms or budget request that `float()` cannot read filters nothing. */
  lemma UnreadableNumbersIgnored(py: Builtins, filters: seq<(string, Value)>, md: map<string, Meta>)
    requires PyFloat(py, GetOr(filters, "bedrooms", Null)).None?
    requires PyFloat(py, GetOr(filters, "budget_max", Null)).None?
    ensures BedroomsOk(py, filters, md) && BudgetOk(py, filters, md)
  {
  }

  /** A chunk with no (or a zero) bedroom count counts as 0 bedrooms. */
  lemma MissingBedroomsCountAsZero(py: Builtins, filters: seq<(string, Value)>, md: map<string, Meta>, want: real)
    requires "bedrooms" !in md
    requires GetOr(filters, "bedrooms", Null) == Float(want)
    ensures BedroomsOk(py, filters, md) <==> want <= Tolerance
  {
  }

  /** A chunk with no price counts as costing 1e12. */
  lemma MissingPriceCountsAsHuge(py: Builtins, filters: seq<(string, Value)>, md: map<string, Meta>, budget: real)
    requires "price" !in md
    requires GetOr(filters, "budget_max", Null) == Float(budget)
    ensures BudgetOk(py, filters, md) <==> NoPrice <= budget + Tolerance
  {
  }
}
