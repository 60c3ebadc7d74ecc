/**
 * services/api/vectorstore.py: whole property records kept in a Chroma collection, one
 * entry per property id, and chat messages kept in a second collection.
 * `_flatten_property` turns a record into the text that is embedded, `add_or_update` and
 * `delete` maintain the collection, and `search` / `search_messages` post-filter the
 * nearest entries.
 *
 * The collection is a map from id to stored text and metadata. The nearest-neighbour
 * query is a parameter: it is handed the query text and the number of results wanted,
 * and gives back ids, metadata and distances, nearest first.
 */
module VectorStore {
  import opened Wrappers
  import opened Values
  import opened Text
  import opened Seqs

  // ---------------------------------------------------------------------------
  // _flatten_property

  /** The record fields joined into the embedded text, in this order. */
  const TextFields: seq<string> := [
    "description", "unitId", "physical_features", "design_and_layout", "living_experience",
    "equipment_and_handover_materials", "legal_and_product_status", "property_groups"]

  /** The text a record field contributes: nothing when falsy, JSON for a dict or list, else `str(v)`. */
  function FieldText(py: Builtins, doc: seq<(string, Value)>): string -> Option<string>
  {
    (k: string) =>
      var v := GetOr(doc, k, Null);
      if !Truthy(v) then None
      else if v.Obj? || v.Arr? then Some(py.jsonDumps(v))
      else Some(ToStr(py, v))
  }

  /** `doc.get("_meta", {})` when it is a dict; None when it is something else, on which `.get` raises. */
  function MetaOf(doc: seq<(string, Value)>): Option<seq<(string, Value)>>
  {
    match Get(doc, "_meta")
    case None => Some([])
    case Some(v) => if v.Obj? then Some(v.fields) else None
  }

  /** The closing `title:… location:… type:… bedrooms:… price:…` line; a missing key shows as `None`. */
  function MetaLine(py: Builtins, meta: seq<(string, Value)>): string
  {
    "title:" + ToStr(py, GetOr(meta, "title", Null))
    + " location:" + ToStr(py, GetOr(meta, "location", Null))
    + " type:" + ToStr(py, GetOr(meta, "property_type", Null))
    + " bedrooms:" + ToStr(py, GetOr(meta, "bedrooms", Null))
    + " price:" + ToStr(py, GetOr(meta, "price", Null))
  }

  /** The lines of the embedded text: one per truthy field, then the meta line. */
  function TextParts(py: Builtins, doc: seq<(string, Value)>, meta: seq<(string, Value)>): seq<string>
  {
    Collect(FieldText(py, doc), TextFields) + [MetaLine(py, meta)]
  }

  /** `_flatten_property(doc)`; None where it raises. */
  function PropertyText(py: Builtins, doc: seq<(string, Value)>): Option<string>
  {
    match MetaOf(doc)
    case None => None
    case Some(meta) => Some(Join("\n", TextParts(py, doc, meta)))
  }

  /** `_flatten_property(doc)`: the loop over the fields, then the meta line. */
  method FlattenProperty(py: Builtins, doc: seq<(string, Value)>) returns (text: Option<string>)
    ensures text == PropertyText(py, doc)
  {
    var parts: seq<string> := [];
    for i := 0 to |TextFields|
      invariant parts == Collect(FieldText(py, doc), TextFields[..i])
    {
      var k := TextFields[i];
      var v := GetOr(doc, k, Null);
      CollectStep(FieldText(py, doc), TextFields, i);
      if !Truthy(v) {
        continue;
      }
      if v.Obj? || v.Arr? {
        parts := parts + [py.jsonDumps(v)];
      } else {
        parts := parts + [ToStr(py, v)];
      }
    }
    assert TextFields[..|TextFields|] == TextFields;
    var meta := MetaOf(doc);
    if meta.None? {
      return None;
    }
    parts := parts + [MetaLine(py, meta.value)];
    text := Some(Join("\n", parts));
  }

  /**
   * The field lines are the truthy fields in their fixed order, each rendered; every
   * truthy field has its line.
   */
  lemma TextPartsInOrder(py: Builtins, doc: seq<(string, Value)>, meta: seq<(string, Value)>)
    ensures var parts := TextParts(py, doc, meta); var src := Sources(FieldText(py, doc), TextFields);
      && |parts| == |src| + 1
      && parts[|parts| - 1] == MetaLine(py, meta)
      && (forall k | 0 <= k < |src| :: Truthy(GetOr(doc, TextFields[src[k]], Null)))
      && (forall j | 0 <= j < |TextFields| :: Truthy(GetOr(doc, TextFields[j], Null)) ==> j in src)
  {
    var f := FieldText(py, doc);
    CollectSources(f, TextFields);
    assert forall j | 0 <= j < |TextFields| :: f(TextFields[j]).Some? == Truthy(GetOr(doc, TextFields[j], Null));
  }

  /**
   * When no rendered field holds a line break, splitting the text at line breaks gives
   * back its lines, the meta line last.
   */
  lemma PropertyTextLines(py: Builtins, doc: seq<(string, Value)>)
    requires MetaOf(doc).Some?
    requires forall k | 0 <= k < |TextParts(py, doc, MetaOf(doc).value)| :: '\n' !in TextParts(py, doc, MetaOf(doc).value)[k]
    ensures Split(PropertyText(py, doc).value, '\n') == TextParts(py, doc, MetaOf(doc).value)
  {
    SplitJoin(TextParts(py, doc, MetaOf(doc).value), '\n');
  }

  /** `_flatten_property` raises exactly when `_meta` is present and not a dict. */
  lemma PropertyTextFails(py: Builtins, doc: seq<(string, Value)>)
    ensures PropertyText(py, doc).None? <==> Get(doc, "_meta").Some? && !Get(doc, "_meta").value.Obj?
  {
  }

  // ---------------------------------------------------------------------------
  // add_or_update / delete

  /** A stored property: its text and its metadata. */
  datatype Stored = Stored(text: string, metadata: seq<(string, Value)>)

  /**
   * The store after upserting `doc` whose text came out as `text`; None where
   * `add_or_update` raises: the text could not be built, or `doc` has no string `id`.
   */
  function AddWith(entries: map<string, Stored>, text: Option<string>, doc: seq<(string, Value)>): Option<map<string, Stored>>
  {
    match (text, Get(doc, "id"))
    case (Some(t), Some(Str(pid))) => Some(entries[pid := Stored(t, MetaOf(doc).GetOr([]))])
    case _ => None
  }

  /** The store after `add_or_update(doc)`; None where it raises. */
  function AfterAdd(py: Builtins, entries: map<string, Stored>, doc: seq<(string, Value)>): Option<map<string, Stored>>
  {
    AddWith(entries, PropertyText(py, doc), doc)
  }

  /** Adding the same record twice leaves the store as adding it once. */
  lemma AddIdempotent(entries: map<string, Stored>, text: Option<string>, doc: seq<(string, Value)>)
    requires AddWith(entries, text, doc).Some?
    ensures AddWith(AddWith(entries, text, doc).value, text, doc) == AddWith(entries, text, doc)
  {
    var pid := Get(doc, "id").value.s;
    var stored := Stored(text.value, MetaOf(doc).GetOr([]));
    assert entries[pid := stored][pid := stored] == entries[pid := stored];
  }

  /** Adding touches only the record's own id, and stores its text and `_meta` there. */
  lemma AddTouchesOnlyItsId(entries: map<string, Stored>, text: Option<string>, doc: seq<(string, Value)>, id: string)
    requires AddWith(entries, text, doc).Some?
    ensures text.Some? && Get(doc, "id").Some? && Get(doc, "id").value.Str?
    ensures Get(doc, "id").value.s in AddWith(entries, text, doc).value
    ensures AddWith(entries, text, doc).value[Get(doc, "id").value.s] == Stored(text.value, MetaOf(doc).GetOr([]))
    ensures id != Get(doc, "id").value.s ==>
      (id in AddWith(entries, text, doc).value <==> id in entries) &&
      (id in entries ==> AddWith(entries, text, doc).value[id] == entries[id])
  {
  }

  /** Deleting right after adding leaves the store as deleting alone. */
  lemma DeleteUndoesAdd(entries: map<string, Stored>, text: Option<string>, doc: seq<(string, Value)>)
    requires AddWith(entries, text, doc).Some?
    ensures Get(doc, "id").Some? && Get(doc, "id").value.Str?
    ensures AddWith(entries, text, doc).value - {Get(doc, "id").value.s} == entries - {Get(doc, "id").value.s}
  {
  }

  /** The property collection. */
  class Collection {
    var entries: map<string, Stored>

    constructor ()
      ensures entries == map[]
    {
      entries := map[];
    }

    /** `add_or_update(doc)`: upsert the record's text and `_meta` under its id; `ok` is false where it raises. */
    method AddOrUpdate(py: Builtins, doc: seq<(string, Value)>) returns (ok: bool)
      modifies this
      ensures ok == AfterAdd(py, old(entries), doc).Some?
      ensures entries == if ok then AfterAdd(py, old(entries), doc).value else old(entries)
    {
      var text := FlattenProperty(py, doc);
      if text.None? {
        return false;
      }
      var id := Get(doc, "id");
      if id.None? || !id.value.Str? {
        return false;
      }
      var meta := MetaOf(doc);
      entries := entries[id.value.s := Stored(text.value, meta.GetOr([]))];
      ok := true;
    }

    /** `delete(pid)`: remove the entry with that id, if any. */
    method Delete(pid: string)
      modifies this
      ensures entries == old(entries) - {pid}
    {
      entries := entries - {pid};
    }
  }

  // ---------------------------------------------------------------------------
  // search / search_messages

  /** One query result: its id, its metadata (None when missing) and its distance. */
  datatype Candidate = Candidate(id: string, metadata: Option<seq<(string, Value)>>, distance: real)

  /** A search result. */
  datatype Hit = Hit(id: string, score: real, metadata: seq<(string, Value)>)

  /** `metas[i] or {}`. */
  function MetaFields(c: Candidate): seq<(string, Value)>
  {
    if c.metadata.Some? then c.metadata.value else []
  }

  /** The result for a candidate: score `1 - distance`. */
  function HitFor(c: Candidate): Hit
  {
    Hit(c.id, 1.0 - c.distance, MetaFields(c))
  }

  /** `str(meta.get(k, "")).lower().find(str(want).lower()) >= 0`. */
  predicate FieldContains(py: Builtins, meta: seq<(string, Value)>, k: string, want: Value)
  {
    Contains(Lower(ToStr(py, GetOr(meta, k, Str("")))), Lower(ToStr(py, want)))
  }

  /** The bedrooms tolerance of `search`, 0.1. */
  const BedroomsSlack: real := 0.1

  /** The budget tolerance of `search`, 1e-6. */
  const BudgetSlack: real := 0.000001

  /** The price assumed for an entry without one, 1e12. */
  const NoPrice: real := 1000000000000.0

  /** A filter of `search` is active when its key is present and its value truthy. */
  predicate Active(filters: seq<(string, Value)>, k: string)
  {
    Truthy(GetOr(filters, k, Null))
  }

  /** Every active filter of `search` passes; a bedrooms or budget value that `float()` cannot read passes. */
  predicate Passes(py: Builtins, filters: seq<(string, Value)>, meta: seq<(string, Value)>)
  {
    (Active(filters, "location") ==> FieldContains(py, meta, "location", GetOr(filters, "location", Null)))
    && (Active(filters, "property_type") ==> FieldContains(py, meta, "property_type", GetOr(filters, "property_type", Null)))
    && (var have := PyFloat(py, GetOr(meta, "bedrooms", Int(0)));
        var want := PyFloat(py, GetOr(filters, "bedrooms", Null));
        Active(filters, "bedrooms") && have.Some? && want.Some? ==> have.value >= want.value - BedroomsSlack)
    && (var have := PyFloat(py, GetOr(meta, "price", Float(NoPrice)));
        var want := PyFloat(py, GetOr(filters, "budget_max", Null));
        Active(filters, "budget_max") && have.Some? && want.Some? ==> have.value <= want.value + BudgetSlack)
  }

  /** The `ok &= ...` steps of `search` for one candidate's metadata. */
  method CheckFilters(py: Builtins, filters: seq<(string, Value)>, meta: seq<(string, Value)>) returns (ok: bool)
    ensures ok == Passes(py, filters, meta)
  {
    ok := true;
    if Active(filters, "location") {
      ok := ok && FieldContains(py, meta, "location", GetOr(filters, "location", Null));
    }
    if Active(filters, "property_type") {
      ok := ok && FieldContains(py, meta, "property_type", GetOr(filters, "property_type", Null));
    }
    if Active(filters, "bedrooms") {
      var have := PyFloat(py, GetOr(meta, "bedrooms", Int(0)));
      var want := PyFloat(py, GetOr(filters, "bedrooms", Null));
      if have.Some? && want.Some? {
        ok := ok && have.value >= want.value - BedroomsSlack;
      }
    }
    if Active(filters, "budget_max") {
      var have := PyFloat(py, GetOr(meta, "price", Float(NoPrice)));
      var want := PyFloat(py, GetOr(filters, "budget_max", Null));
      if have.Some? && want.Some? {
        ok := ok && have.value <= want.value + BudgetSlack;
      }
    }
  }

  /** The result a candidate gives in `search`, if it passes the filters. */
  function Select(py: Builtins, filters: seq<(string, Value)>): Candidate -> Option<Hit>
  {
    (c: Candidate) => if Passes(py, filters, MetaFields(c)) then Some(HitFor(c)) else None
  }

  /** The results of `search` over the query results. */
  function SearchResults(py: Builtins, filters: seq<(string, Value)>, topK: int, cands: seq<Candidate>): seq<Hit>
  {
    Take(Collect(Select(py, filters), cands), Cap(topK))
  }

  /** One more candidate adds its result exactly when it passes the filters. */
  lemma SearchStep(py: Builtins, filters: seq<(string, Value)>, cands: seq<Candidate>, i: int, ok: bool)
    requires 0 <= i < |cands| && ok == Passes(py, filters, MetaFields(cands[i]))
    ensures Collect(Select(py, filters), cands[..i + 1])
         == Collect(Select(py, filters), cands[..i]) + if ok then [HitFor(cands[i])] else []
  {
    CollectStep(Select(py, filters), cands, i);
  }

  /** `search(query, filters, top_k)`: `nearest(query, n)` stands for the collection query for `n` results. */
  method Search(py: Builtins, nearest: (string, int) -> seq<Candidate>, query: string,
                filters: seq<(string, Value)>, topK: int)
    returns (items: seq<Hit>)
    ensures items == SearchResults(py, filters, topK, nearest(query, topK))
  {
    var cands := nearest(query, topK);
    items := [];
    for i := 0 to |cands|
      invariant items == Collect(Select(py, filters), cands[..i]) && |items| < Cap(topK)
    {
      var meta := MetaFields(cands[i]);
      var ok := CheckFilters(py, filters, meta);
      SearchStep(py, filters, cands, i, ok);
      if !ok {
        continue;
      }
      items := items + [HitFor(cands[i])];
      if |items| >= topK {
        CappedCollect(Select(py, filters), cands, i + 1, Cap(topK));
        break;
      }
    }
    assert cands[..|cands|] == cands;
  }

  /**
   * The results of `search` keep the query order, each made from a candidate that passes
   * every active filter and scored `1 - distance`; at most `Cap(top_k)` of them, and
   * fewer only when every passing candidate is among them.
   */
  lemma SearchSelects(py: Builtins, filters: seq<(string, Value)>, topK: int, cands: seq<Candidate>)
    ensures var r := SearchResults(py, filters, topK, cands); var src := Sources(Select(py, filters), cands);
      && |r| <= Cap(topK) && |r| <= |src|
      && (forall k | 0 <= k < |r| ::
            Passes(py, filters, MetaFields(cands[src[k]])) &&
            r[k] == Hit(cands[src[k]].id, 1.0 - cands[src[k]].distance, MetaFields(cands[src[k]])))
      && (|r| < Cap(topK) ==> forall j | 0 <= j < |cands| :: Passes(py, filters, MetaFields(cands[j])) ==> j in src)
  {
    var f := Select(py, filters);
    TakeCollectSources(f, cands, Cap(topK));
    assert forall j | 0 <= j < |cands| :: f(cands[j]).Some? == Passes(py, filters, MetaFields(cands[j]));
  }

  /** Type and location are substring tests: a requested type passes any entry whose type contains it. */
  lemma TypeFilterIsSubstring(py: Builtins, filters: seq<(string, Value)>, meta: seq<(string, Value)>)
    requires Active(filters, "property_type")
    ensures Passes(py, filters, meta) ==> FieldContains(py, meta, "property_type", GetOr(filters, "property_type", Null))
  {
  }

  /** For whole bedroom counts the 0.1 tolerance is the plain comparison. */
  lemma WholeBedroomsCompareExactly(py: Builtins, filters: seq<(string, Value)>, meta: seq<(string, Value)>, have: int, want: int)
    requires GetOr(meta, "bedrooms", Int(0)) == Int(have) && GetOr(filters, "bedrooms", Null) == Int(want)
    requires want != 0
    ensures Passes(py, filters, meta) ==> have >= want
  {
  }

  /** Filters that are absent or falsy (an empty text, a zero) filter nothing. */
  lemma InactiveFiltersPass(py: Builtins, filters: seq<(string, Value)>, meta: seq<(string, Value)>)
    requires !Active(filters, "location") && !Active(filters, "property_type")
    requires !Active(filters, "bedrooms") && !Active(filters, "budget_max")
    ensures Passes(py, filters, meta)
  {
  }

  /** Every non-None filter value occurs in the stringified metadata field of the same key. */
  predicate MessageMatches(py: Builtins, filters: seq<(string, Value)>, meta: seq<(string, Value)>)
  {
    forall i | 0 <= i < |filters| :: filters[i].1 != Null ==> FieldContains(py, meta, filters[i].0, filters[i].1)
  }

  /** The inner loop of `search_messages` over the filter items. */
  method CheckMessageFilters(py: Builtins, filters: seq<(string, Value)>, meta: seq<(string, Value)>) returns (ok: bool)
    ensures ok == MessageMatches(py, filters, meta)
  {
    ok := true;
    for i := 0 to |filters|
      invariant ok == forall j | 0 <= j < i :: filters[j].1 != Null ==> FieldContains(py, meta, filters[j].0, filters[j].1)
    {
      var (k, v) := filters[i];
      if v == Null {
        continue;
      }
      ok := ok && FieldContains(py, meta, k, v);
    }
  }

  /** The result a candidate gives in `search_messages`; filters apply only when given and non-empty. */
  function SelectMessage(py: Builtins, filters: Option<seq<(string, Value)>>): Candidate -> Option<Hit>
  {
    (c: Candidate) =>
      if filters.Some? && filters.value != [] && !MessageMatches(py, filters.value, MetaFields(c)) then None
      else Some(HitFor(c))
  }

  /** The results of `search_messages` over the query results. */
  function MessageResults(py: Builtins, filters: Option<seq<(string, Value)>>, topK: int, cands: seq<Candidate>): seq<Hit>
  {
    Take(Collect(SelectMessage(py, filters), cands), Cap(topK))
  }

  /** `search_messages(query, top_k, filters)`: the query asks for `top_k * 2` results. */
  method SearchMessages(py: Builtins, nearest: (string, int) -> seq<Candidate>, query: string, topK: int,
                        filters: Option<seq<(string, Value)>>)
    returns (items: seq<Hit>)
    ensures items == MessageResults(py, filters, topK, nearest(query, topK * 2))
  {
    var cands := nearest(query, topK * 2);
    items := [];
    for i := 0 to |cands|
      invariant items == Collect(SelectMessage(py, filters), cands[..i]) && |items| < Cap(topK)
    {
      var meta := MetaFields(cands[i]);
      CollectStep(SelectMessage(py, filters), cands, i);
      if filters.Some? && filters.value != [] {
        var ok := CheckMessageFilters(py, filters.value, meta);
        if !ok {
          continue;
        }
      }
      items := items + [HitFor(cands[i])];
      if |items| >= topK {
        CappedCollect(SelectMessage(py, filters), cands, i + 1, Cap(topK));
        break;
      }
    }
    assert cands[..|cands|] == cands;
  }

  /**
   * The results of `search_messages` keep the query order, each matching every non-None
   * filter; at most `Cap(top_k)` of them, and fewer only when every matching candidate is
   * among them.
   */
  lemma MessageSearchSelects(py: Builtins, filters: Option<seq<(string, Value)>>, topK: int, cands: seq<Candidate>)
    ensures var r := MessageResults(py, filters, topK, cands); var src := Sources(SelectMessage(py, filters), cands);
      && |r| <= Cap(topK) && |r| <= |src|
      && (forall k | 0 <= k < |r| ::
            (filters.Some? ==> MessageMatches(py, filters.value, MetaFields(cands[src[k]]))) &&
            r[k] == HitFor(cands[src[k]]))
      && (|r| < Cap(topK) ==> forall j | 0 <= j < |cands| ::
            (filters.Some? ==> MessageMatches(py, filters.value, MetaFields(cands[j]))) ==> j in src)
  {
    var f := SelectMessage(py, filters);
    TakeCollectSources(f, cands, Cap(topK));
    assert forall j | 0 <= j < |cands| ::
      f(cands[j]).Some? == (filters.Some? ==> MessageMatches(py, filters.value, MetaFields(cands[j])));
  }

  /** Without filters, `search_messages` returns the first `Cap(top_k)` query results. */
  lemma UnfilteredMessages(py: Builtins, topK: int, cands: seq<Candidate>)
    ensures |MessageResults(py, None, topK, cands)| == if |cands| <= Cap(topK) then |cands| else Cap(topK)
  {
    CollectAll(SelectMessage(py, None), cands);
  }

  /** When `f` maps every element to something, `Collect` keeps them all. */
  lemma {:induction false} CollectAll<T, U>(f: T -> Option<U>, xs: seq<T>)
    requires forall j | 0 <= j < |xs| :: f(xs[j]).Some?
    ensures |Collect(f, xs)| == |xs|
  {
    if xs != [] {
      CollectAll(f, xs[..|xs| - 1]);
    }
  }
}
