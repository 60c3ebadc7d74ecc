/**
 * The document-building half of services/api/chunker.py: the numeric coercion
 * `_safe_float`, the path lookup `_first_non_empty`, `json_to_documents`, which turns
 * one property record into one document per non-empty section, and the numbering
 * loop of `chunk_documents`.
 */
module Chunker {
  import opened Wrappers
  import opened Values
  import opened Text
  import opened NoiseFilter
  import opened Flattener
  import opened Seqs

  // ---------------------------------------------------------------------------
  // _safe_float

  /**
   * `_safe_float(v)`: None stays None, numbers (bools among them) convert exactly,
   * anything else is rendered, cleared of commas, stripped and parsed; an empty or
   * unparseable text gives None.
   */
  function SafeFloat(py: Builtins, v: Value): Option<real>
  {
    match v
    case Null => None
    case Bool(_) => PyFloat(py, v)
    case Int(_) => PyFloat(py, v)
    case Float(_) => PyFloat(py, v)
    case Str(s) => ParseText(py, s)
    case _ => ParseText(py, ToStr(py, v))
  }

  /** `float(s.replace(",", "").strip())`, with None for an empty text. */
  function ParseText(py: Builtins, s: string): Option<real>
  {
    var t := Strip(RemoveAll(s, ','));
    if t == "" then None else py.floatParse(t)
  }

  /** `float(s)` reads a non-empty run of decimal digits as the number it denotes. */
  ghost predicate ParsesDigits(py: Builtins)
  {
    forall d | d != [] && AllDigits(d) :: py.floatParse(d) == Some(DigitsValue(d) as real)
  }

  /** Thousands separators make no difference to `_safe_float`. */
  lemma SafeFloatIgnoresCommas(py: Builtins, a: string, b: string)
    ensures SafeFloat(py, Str(a + "," + b)) == SafeFloat(py, Str(a + b))
  {
    RemoveAllSkipsOne(a, b, ',');
  }

  lemma RemoveAllSkipsOne(a: string, b: string, c: char)
    ensures RemoveAll(a + [c] + b, c) == RemoveAll(a + b, c)
  {
    RemoveAllAppend(a + [c], b, c);
    RemoveAllAppend(a, [c], c);
    RemoveAllAppend(a, b, c);
  }

  /** A text of digits reads as its decimal value. */
  lemma SafeFloatOfDigits(py: Builtins, s: string)
    requires ParsesDigits(py)
    requires s != [] && AllDigits(s)
    ensures SafeFloat(py, Str(s)) == Some(DigitsValue(s) as real)
  {
    RemoveAllAbsent(s, ',');
    assert IsDigit(s[0]) && IsDigit(s[|s| - 1]);
    StrippedIsFixed(s);
  }

  /** A text made of commas and whitespace only gives None. */
  lemma SafeFloatOfBlank(py: Builtins, s: string)
    requires forall k | 0 <= k < |s| :: s[k] == ',' || IsSpace(s[k])
    ensures SafeFloat(py, Str(s)) == None
  {
    var t := RemoveAll(s, ',');
    forall k | 0 <= k < |t| ensures IsSpace(t[k]) {
      var x := t[k];
      assert x in multiset(t);
      assert x in multiset(s);
    }
    BlankStripsToEmpty(t);
  }

  /** A text of whitespace only strips to nothing. */
  lemma {:induction false} BlankStripsToEmpty(t: string)
    requires forall k | 0 <= k < |t| :: IsSpace(t[k])
    ensures TrimStart(t) == "" && Strip(t) == ""
  {
    if t != [] {
      BlankStripsToEmpty(t[1..]);
    }
  }

  /** Removing a character that does not occur changes nothing. */
  lemma {:induction false} RemoveAllAbsent(s: string, c: char)
    requires c !in s
    ensures RemoveAll(s, c) == s
  {
    if s != [] {
      RemoveAllAbsent(s[1..], c);
      assert s == [s[0]] + s[1..];
    }
  }

  // ---------------------------------------------------------------------------
  // _first_non_empty

  /**
   * `get_path(d, path)` along the key-path split at its dots: each step needs a dict
   * holding the key with a non-null value.
   */
  function GetPath(v: Value, parts: seq<string>): Option<Value>
  {
    if parts == [] then Some(v)
    else if !v.Obj? then None
    else
      match Get(v.fields, parts[0])
      case None => None
      case Some(c) => if c.Null? then None else GetPath(c, parts[1..])
  }

  /** `val in (None, "", [])`. */
  predicate Blank(v: Value)
  {
    v == Null || v == Str("") || v == Arr([])
  }

  /** The key-path `path` leads to a value that is not blank. */
  predicate HasValueAt(data: Value, path: seq<string>)
  {
    GetPath(data, path).Some? && !Blank(GetPath(data, path).value)
  }

  /**
   * Each key-path is a dotted key split at its dots (no step holds a dot, so `SplitJoin`
   * gives the path back from the dotted key) and no step uses the bracketed `name[i]` form.
   */
  predicate PlainKeys(paths: seq<seq<string>>)
  {
    forall i | 0 <= i < |paths| :: paths[i] != [] && forall j | 0 <= j < |paths[i]| :: '[' !in paths[i][j] && '.' !in paths[i][j]
  }

  /** `s` renders the value at `paths[i]`, the first of `paths` that leads to a non-blank value. */
  predicate FoundAt(py: Builtins, data: Value, paths: seq<seq<string>>, i: int, s: string)
  {
    && 0 <= i < |paths|
    && HasValueAt(data, paths[i])
    && (forall j | 0 <= j < i :: !HasValueAt(data, paths[j]))
    && s == ToStr(py, GetPath(data, paths[i]).value)
  }

  /**
   * `_first_non_empty(data, keys)`, each key given split at its dots: the rendering of
   * the value at the first key-path that leads to a non-blank value, or None when there
   * is none.
   */
  function FirstNonEmpty(py: Builtins, data: Value, paths: seq<seq<string>>): (r: Option<string>)
    requires PlainKeys(paths)
    ensures r.None? <==> forall i | 0 <= i < |paths| :: !HasValueAt(data, paths[i])
    ensures r.Some? ==> exists i :: FoundAt(py, data, paths, i, r.value)
  {
    if paths == [] then None
    else if HasValueAt(data, paths[0]) then
      var s := ToStr(py, GetPath(data, paths[0]).value);
      assert FoundAt(py, data, paths, 0, s);
      Some(s)
    else
      var r := FirstNonEmpty(py, data, paths[1..]);
      if r.Some? then FoundShift(py, data, paths, r.value); r else r
  }

  /** A key-path that leads nowhere, put in front, moves the first hit one place on. */
  lemma FoundShift(py: Builtins, data: Value, paths: seq<seq<string>>, s: string)
    requires paths != [] && !HasValueAt(data, paths[0])
    requires exists i :: FoundAt(py, data, paths[1..], i, s)
    ensures exists i :: FoundAt(py, data, paths, i, s)
  {
    var i :| FoundAt(py, data, paths[1..], i, s);
    assert FoundAt(py, data, paths, i + 1, s);
  }

  // ---------------------------------------------------------------------------
  // json_to_documents

  /** A cleaned metadata value: a string, a float, or an int (the chunk index). */
  datatype Meta = MStr(s: string) | MNum(x: real) | MInt(n: int)

  /** A LangChain `Document`: its text and its metadata dict. */
  datatype Document = Document(content: string, metadata: map<string, Meta>)

  /** The sections of a property record, in the order `json_to_documents` visits them. */
  const SectionNames: seq<string> := [
    "description", "design_and_layout", "living_experience", "physical_features",
    "equipment_and_handover_materials", "legal_and_product_status", "property_groups", "misc"]

  /** The `buckets` dict: each section with its content, missing ones read as their default. */
  function Buckets(rec: seq<(string, Value)>): (r: seq<(string, Value)>)
    ensures |r| == |SectionNames|
    ensures forall i | 0 <= i < |r| :: r[i].0 == SectionNames[i]
  {
    [("description", GetOr(rec, "description", Str(""))),
     ("design_and_layout", GetOr(rec, "design_and_layout", Obj([]))),
     ("living_experience", GetOr(rec, "living_experience", Obj([]))),
     ("physical_features", GetOr(rec, "physical_features", Obj([]))),
     ("equipment_and_handover_materials", GetOr(rec, "equipment_and_handover_materials", Obj([]))),
     ("legal_and_product_status", GetOr(rec, "legal_and_product_status", Obj([]))),
     ("property_groups", GetOr(rec, "property_groups", Arr([]))),
     ("misc", Obj([("unitId", GetOr(rec, "unitId", Null)),
                   ("created_at", GetOr(rec, "created_at", Null)),
                   ("updated_at", GetOr(rec, "updated_at", Null))]))]
  }

  /** `property_json.get("id") or property_json.get("unitId") or "UNKNOWN"`. */
  function PropertyId(rec: seq<(string, Value)>): (r: Value)
    ensures Truthy(r)
    ensures Truthy(GetOr(rec, "id", Null)) ==> r == GetOr(rec, "id", Null)
    ensures !Truthy(GetOr(rec, "id", Null)) && Truthy(GetOr(rec, "unitId", Null)) ==> r == GetOr(rec, "unitId", Null)
    ensures !Truthy(GetOr(rec, "id", Null)) && !Truthy(GetOr(rec, "unitId", Null)) ==> r == Str("UNKNOWN")
  {
    Or(Or(GetOr(rec, "id", Null), GetOr(rec, "unitId", Null)), Str("UNKNOWN"))
  }

  /** The candidate key-paths of the metadata fields, split at their dots. */
  const LocationKeys: seq<seq<string>> := [["design_and_layout", "location"], ["physical_features", "location"]]
  const TypeKeys: seq<seq<string>> := [["design_and_layout", "type"], ["design_and_layout", "property_type"]]
  const BedroomsKeys: seq<seq<string>> := [["design_and_layout", "bedrooms"]]
  const PriceKeys: seq<seq<string>> := [["design_and_layout", "price"]]

  lemma MetadataKeysPlain()
    ensures PlainKeys(LocationKeys) && PlainKeys(TypeKeys) && PlainKeys(BedroomsKeys) && PlainKeys(PriceKeys)
  {
    StepsPlain("design_and_layout", "location");
    StepsPlain("physical_features", "location");
    StepsPlain("design_and_layout", "type");
    StepsPlain("design_and_layout", "property_type");
    StepsPlain("design_and_layout", "bedrooms");
    StepsPlain("design_and_layout", "price");
  }

  lemma StepsPlain(a: string, b: string)
    requires forall k | 0 <= k < |a| :: 'a' <= a[k] <= 'z' || a[k] == '_'
    requires forall k | 0 <= k < |b| :: 'a' <= b[k] <= 'z' || b[k] == '_'
    ensures '[' !in a && '.' !in a && '[' !in b && '.' !in b
  {
  }

  /** An optional text as a Python value: None or the string. */
  function OptStr(o: Option<string>): Value
  {
    if o.Some? then Str(o.value) else Null
  }

  /** An optional number as a Python value: None or the float. */
  function OptNum(o: Option<real>): Value
  {
    if o.Some? then Float(o.value) else Null
  }

  /** The `location` of the metadata: the first non-blank of the two candidate paths. */
  function LocationOf(py: Builtins, rec: seq<(string, Value)>): Option<string>
  {
    MetadataKeysPlain();
    FirstNonEmpty(py, Obj(rec), LocationKeys)
  }

  /** The `property_type` of the metadata. */
  function TypeOf(py: Builtins, rec: seq<(string, Value)>): Option<string>
  {
    MetadataKeysPlain();
    FirstNonEmpty(py, Obj(rec), TypeKeys)
  }

  /** The `bedrooms` of the metadata: `_safe_float` of the bedrooms path. */
  function BedroomsOf(py: Builtins, rec: seq<(string, Value)>): Option<real>
  {
    MetadataKeysPlain();
    SafeFloat(py, OptStr(FirstNonEmpty(py, Obj(rec), BedroomsKeys)))
  }

  /** The `price` of the metadata: `_safe_float` of the price path. */
  function PriceOf(py: Builtins, rec: seq<(string, Value)>): Option<real>
  {
    MetadataKeysPlain();
    SafeFloat(py, OptStr(FirstNonEmpty(py, Obj(rec), PriceKeys)))
  }

  /** The keys of the `metadata` dict, in insertion order. */
  const MetaKeyOrder: seq<string> := ["property_id", "section", "unitId", "location", "property_type", "bedrooms", "price"]

  lemma MetaKeyOrderDistinct()
    ensures forall i, j | 0 <= i < j < |MetaKeyOrder| :: MetaKeyOrder[i] != MetaKeyOrder[j]
  {
  }

  /** The `metadata` dict before cleaning, in its insertion order. */
  function RawMetadata(py: Builtins, rec: seq<(string, Value)>, section: string): (r: seq<(string, Value)>)
    ensures |r| == |MetaKeyOrder| && forall i | 0 <= i < |r| :: r[i].0 == MetaKeyOrder[i]
  {
    [("property_id", PropertyId(rec)),
     ("section", Str(section)),
     ("unitId", GetOr(rec, "unitId", Null)),
     ("location", OptStr(LocationOf(py, rec))),
     ("property_type", OptStr(TypeOf(py, rec))),
     ("bedrooms", OptNum(BedroomsOf(py, rec))),
     ("price", OptNum(PriceOf(py, rec)))]
  }

  const StringMetaKeys: set<string> := {"location", "property_type", "unitId", "section", "property_id"}
  const NumericMetaKeys: set<string> := {"bedrooms", "price"}

  /** What the cleaning loop stores for one entry: nothing for None or a failed `float`, else a string or a float. */
  function CleanEntry(py: Builtins, k: string, v: Value): Option<Meta>
  {
    if v.Null? then None
    else if k in StringMetaKeys then Some(MStr(ToStr(py, v)))
    else if k in NumericMetaKeys then
      match PyFloat(py, v)
      case None => None
      case Some(x) => Some(MNum(x))
    else Some(MStr(ToStr(py, v)))
  }

  /** The `cleaned` dict built from the entries of `raw`, in order, a later entry overwriting an earlier one. */
  function Cleaned(py: Builtins, raw: seq<(string, Value)>): map<string, Meta>
  {
    if raw == [] then map[]
    else
      var n := |raw| - 1;
      var m := Cleaned(py, raw[..n]);
      match CleanEntry(py, raw[n].0, raw[n].1)
      case None => m
      case Some(e) => m[raw[n].0 := e]
  }

  /** The cleaning loop of `json_to_documents`. */
  method CleanMetadata(py: Builtins, raw: seq<(string, Value)>) returns (cleaned: map<string, Meta>)
    ensures cleaned == Cleaned(py, raw)
  {
    cleaned := map[];
    var i := 0;
    while i < |raw|
      invariant 0 <= i <= |raw|
      invariant cleaned == Cleaned(py, raw[..i])
    {
      var (k, v) := raw[i];
      assert raw[..i + 1][..i] == raw[..i];
      if !v.Null? {
        if k in StringMetaKeys {
          cleaned := cleaned[k := MStr(ToStr(py, v))];
        } else if k in NumericMetaKeys {
          var x := PyFloat(py, v);
          if x.Some? {
            cleaned := cleaned[k := MNum(x.value)];
          }
        } else {
          cleaned := cleaned[k := MStr(ToStr(py, v))];
        }
      }
      i := i + 1;
    }
    assert raw[..i] == raw;
  }

  /** The keys of `raw` are pairwise distinct, as a dict's are. */
  predicate DistinctKeys(raw: seq<(string, Value)>)
  {
    forall i, j | 0 <= i < j < |raw| :: raw[i].0 != raw[j].0
  }

  /** The cleaned dict holds exactly the keys whose entries survive cleaning. */
  lemma {:induction false} CleanedKeys(py: Builtins, raw: seq<(string, Value)>, k: string)
    ensures k in Cleaned(py, raw) <==> exists i | 0 <= i < |raw| :: raw[i].0 == k && CleanEntry(py, k, raw[i].1).Some?
  {
    if raw != [] {
      var n := |raw| - 1;
      CleanedKeys(py, raw[..n], k);
      if k in Cleaned(py, raw[..n]) {
        var i :| 0 <= i < n && raw[..n][i].0 == k && CleanEntry(py, k, raw[..n][i].1).Some?;
        assert raw[i] == raw[..n][i];
      }
      forall i | 0 <= i < n ensures raw[..n][i] == raw[i] { }
    }
  }

  /** With distinct keys, each entry that survives cleaning is stored as cleaned, and no other. */
  lemma {:induction false} CleanedEntry(py: Builtins, raw: seq<(string, Value)>, i: int)
    requires DistinctKeys(raw) && 0 <= i < |raw|
    ensures raw[i].0 in Cleaned(py, raw) <==> CleanEntry(py, raw[i].0, raw[i].1).Some?
    ensures raw[i].0 in Cleaned(py, raw) ==> Cleaned(py, raw)[raw[i].0] == CleanEntry(py, raw[i].0, raw[i].1).value
  {
    var n := |raw| - 1;
    if i < n {
      assert raw[..n][i] == raw[i];
      assert raw[n].0 != raw[i].0;
      CleanedEntry(py, raw[..n], i);
    } else {
      CleanedKeys(py, raw[..n], raw[n].0);
      forall j | 0 <= j < n ensures raw[..n][j].0 != raw[n].0 {
        assert raw[..n][j] == raw[j];
      }
    }
  }

  /** The cleaned metadata of the document of `section`. */
  function MetadataOf(py: Builtins, rec: seq<(string, Value)>, section: string): map<string, Meta>
  {
    Cleaned(py, RawMetadata(py, rec, section))
  }

  lemma RawMetadataDistinct(py: Builtins, rec: seq<(string, Value)>, section: string)
    ensures DistinctKeys(RawMetadata(py, rec, section))
  {
    MetaKeyOrderDistinct();
  }

  /** Every document carries its property id and its section, as strings. */
  lemma MetadataIdentity(py: Builtins, rec: seq<(string, Value)>, section: string)
    ensures var md := MetadataOf(py, rec, section);
      && "property_id" in md && md["property_id"] == MStr(ToStr(py, PropertyId(rec)))
      && "section" in md && md["section"] == MStr(section)
  {
    var raw := RawMetadata(py, rec, section);
    RawMetadataDistinct(py, rec, section);
    CleanedEntry(py, raw, 0);
    CleanedEntry(py, raw, 1);
  }

  /** `unitId` is in the metadata, as a string, exactly when the record holds a non-null one. */
  lemma MetadataUnitId(py: Builtins, rec: seq<(string, Value)>, section: string)
    ensures var md := MetadataOf(py, rec, section);
      && ("unitId" in md <==> GetOr(rec, "unitId", Null) != Null)
      && ("unitId" in md ==> md["unitId"] == MStr(ToStr(py, GetOr(rec, "unitId", Null))))
  {
    var raw := RawMetadata(py, rec, section);
    RawMetadataDistinct(py, rec, section);
    CleanedEntry(py, raw, 2);
  }

  /** `location` and `property_type` are present exactly when some candidate path holds a non-blank value. */
  lemma MetadataLocationAndType(py: Builtins, rec: seq<(string, Value)>, section: string)
    ensures var md := MetadataOf(py, rec, section);
      var loc := LocationOf(py, rec);
      var typ := TypeOf(py, rec);
      && ("location" in md <==> loc.Some?) && ("location" in md ==> md["location"] == MStr(loc.value))
      && ("property_type" in md <==> typ.Some?) && ("property_type" in md ==> md["property_type"] == MStr(typ.value))
  {
    var raw := RawMetadata(py, rec, section);
    RawMetadataDistinct(py, rec, section);
    CleanedEntry(py, raw, 3);
    CleanedEntry(py, raw, 4);
  }

  /** `bedrooms` is present, as a float, exactly when `_safe_float` reads its candidate path. */
  lemma MetadataBedrooms(py: Builtins, rec: seq<(string, Value)>, section: string)
    ensures var md := MetadataOf(py, rec, section); var beds := BedroomsOf(py, rec);
      && ("bedrooms" in md <==> beds.Some?) && ("bedrooms" in md ==> md["bedrooms"] == MNum(beds.value))
  {
    var raw := RawMetadata(py, rec, section);
    RawMetadataDistinct(py, rec, section);
    NumericKeys();
    CleanedEntry(py, raw, 5);
  }

  /** `price` is present, as a float, exactly when `_safe_float` reads its candidate path. */
  lemma MetadataPrice(py: Builtins, rec: seq<(string, Value)>, section: string)
    ensures var md := MetadataOf(py, rec, section); var price := PriceOf(py, rec);
      && ("price" in md <==> price.Some?) && ("price" in md ==> md["price"] == MNum(price.value))
  {
    var raw := RawMetadata(py, rec, section);
    RawMetadataDistinct(py, rec, section);
    NumericKeys();
    CleanedEntry(py, raw, 6);
  }

  lemma NumericKeys()
    ensures "bedrooms" !in StringMetaKeys && "bedrooms" in NumericMetaKeys
    ensures "price" !in StringMetaKeys && "price" in NumericMetaKeys
  {
  }

  /** The metadata holds no key besides the seven it is built from. */
  lemma MetadataKeys(py: Builtins, rec: seq<(string, Value)>, section: string)
    ensures MetadataOf(py, rec, section).Keys <= StringMetaKeys + NumericMetaKeys
  {
    var raw := RawMetadata(py, rec, section);
    forall k | k in MetadataOf(py, rec, section) ensures k in StringMetaKeys + NumericMetaKeys {
      CleanedKeys(py, raw, k);
    }
  }

  /** The line of one pair: `f"[{k}] {v}"`. */
  function Line(pair: (string, string)): string
  {
    "[" + pair.0 + "] " + pair.1
  }

  /** `lines = [f"[{k}] {v}" for k, v in parts]`. */
  function Lines(parts: seq<(string, string)>): (r: seq<string>)
    ensures |r| == |parts| && forall i | 0 <= i < |r| :: r[i] == Line(parts[i])
  {
    seq(|parts|, i requires 0 <= i < |parts| => Line(parts[i]))
  }

  /**
   * A document's text splits at its newlines back into its lines, one per pair, when no
   * path and no value holds a newline.
   */
  lemma DocumentLinesRoundTrip(parts: seq<(string, string)>)
    requires parts != []
    requires forall k | 0 <= k < |parts| :: '\n' !in parts[k].0 && '\n' !in parts[k].1
    ensures Split(Join("\n", Lines(parts)), '\n') == Lines(parts)
  {
    var lines := Lines(parts);
    forall k | 0 <= k < |lines| ensures '\n' !in lines[k] {
      assert lines[k] == "[" + parts[k].0 + "] " + parts[k].1;
    }
    assert "\n" == ['\n'];
    SplitJoin(lines, '\n');
  }

  /** The pairs of one section: `_flatten(content, prefix=section, section=section)`. */
  function SectionPairs(py: Builtins, rule: KeyRule, section: string, content: Value): seq<(string, string)>
  {
    FlattenPairs(py, rule, content, section, Some(section))
  }

  /** The document of one section, or none when the section yields no pair. */
  function SectionDoc(py: Builtins, rule: KeyRule, rec: seq<(string, Value)>, section: string, content: Value)
    : Option<Document>
  {
    var parts := SectionPairs(py, rule, section, content);
    if parts == [] then None
    else Some(Document(Join("\n", Lines(parts)), MetadataOf(py, rec, section)))
  }

  /** The document each `(section, content)` bucket gives, if any. */
  function SectionDocOf(py: Builtins, rule: KeyRule, rec: seq<(string, Value)>): ((string, Value)) -> Option<Document>
  {
    (b: (string, Value)) => SectionDoc(py, rule, rec, b.0, b.1)
  }

  /** `json_to_documents(property_json)` under the key rule `rule`. */
  function Documents(py: Builtins, rule: KeyRule, rec: seq<(string, Value)>): seq<Document>
  {
    Collect(SectionDocOf(py, rule, rec), Buckets(rec))
  }

  /** The body of the section loop: flatten one section and, if it yields pairs, build its document. */
  method SectionDocument(py: Builtins, rule: KeyRule, rec: seq<(string, Value)>, section: string, content: Value)
    returns (doc: Option<Document>)
    ensures doc == SectionDoc(py, rule, rec, section, content)
  {
    var parts := Flatten(py, rule, content, section, Some(section));
    if parts == [] {
      return None;
    }
    var lines := Lines(parts);
    var textBlock := Join("\n", lines);
    var metadata := CleanMetadata(py, RawMetadata(py, rec, section));
    doc := Some(Document(textBlock, metadata));
  }

  /** The section loop of `json_to_documents`. */
  method JsonToDocuments(py: Builtins, rule: KeyRule, rec: seq<(string, Value)>) returns (docs: seq<Document>)
    ensures docs == Documents(py, rule, rec)
  {
    var buckets := Buckets(rec);
    docs := [];
    var i := 0;
    while i < |buckets|
      invariant 0 <= i <= |buckets|
      invariant docs == Collect(SectionDocOf(py, rule, rec), buckets[..i])
    {
      var (section, content) := buckets[i];
      CollectStep(SectionDocOf(py, rule, rec), buckets, i);
      var doc := SectionDocument(py, rule, rec, section, content);
      if doc.Some? {
        docs := docs + [doc.value];
      }
      i := i + 1;
    }
    assert buckets[..i] == buckets;
  }

  // ---------------------------------------------------------------------------
  // What json_to_documents produces

  /** The document `d` belongs to section `s`. */
  predicate InSection(d: Document, s: string)
  {
    "section" in d.metadata && d.metadata["section"] == MStr(s)
  }

  /** The document of a section is tagged with it and holds the lines of its pairs. */
  lemma SectionDocFacts(py: Builtins, rule: KeyRule, rec: seq<(string, Value)>, section: string, content: Value)
    requires SectionDoc(py, rule, rec, section, content).Some?
    ensures var d := SectionDoc(py, rule, rec, section, content).value;
      && InSection(d, section)
      && SectionPairs(py, rule, section, content) != []
      && d.content == Join("\n", Lines(SectionPairs(py, rule, section, content)))
  {
    MetadataIdentity(py, rec, section);
  }

  lemma SectionNamesDistinct()
    ensures forall i, j | 0 <= i < j < |SectionNames| :: SectionNames[i] != SectionNames[j]
  {
  }

  /** Each collected document is tagged with its source section and holds the lines of that section's pairs. */
  lemma CollectedDocsTagged(py: Builtins, rule: KeyRule, rec: seq<(string, Value)>, buckets: seq<(string, Value)>)
    ensures var f := SectionDocOf(py, rule, rec); var docs := Collect(f, buckets); var src := Sources(f, buckets);
      && |docs| == |src|
      && forall k | 0 <= k < |docs| ::
            && InSection(docs[k], buckets[src[k]].0)
            && SectionPairs(py, rule, buckets[src[k]].0, buckets[src[k]].1) != []
            && docs[k].content == Join("\n", Lines(SectionPairs(py, rule, buckets[src[k]].0, buckets[src[k]].1)))
  {
    var f := SectionDocOf(py, rule, rec);
    var docs := Collect(f, buckets);
    var src := Sources(f, buckets);
    CollectSources(f, buckets);
    forall k | 0 <= k < |docs|
      ensures && InSection(docs[k], buckets[src[k]].0)
              && SectionPairs(py, rule, buckets[src[k]].0, buckets[src[k]].1) != []
              && docs[k].content == Join("\n", Lines(SectionPairs(py, rule, buckets[src[k]].0, buckets[src[k]].1)))
    {
      var b := buckets[src[k]];
      assert SectionDoc(py, rule, rec, b.0, b.1) == Some(docs[k]);
      SectionDocFacts(py, rule, rec, b.0, b.1);
    }
  }

  /** Every section with at least one pair is a source of a collected document. */
  lemma CollectedDocsComplete(py: Builtins, rule: KeyRule, rec: seq<(string, Value)>, buckets: seq<(string, Value)>)
    ensures forall j | 0 <= j < |buckets| :: SectionPairs(py, rule, buckets[j].0, buckets[j].1) != [] ==>
      j in Sources(SectionDocOf(py, rule, rec), buckets)
  {
    var f := SectionDocOf(py, rule, rec);
    CollectSources(f, buckets);
    forall j | 0 <= j < |buckets| && SectionPairs(py, rule, buckets[j].0, buckets[j].1) != []
      ensures j in Sources(f, buckets)
    {
      assert f(buckets[j]).Some?;
    }
  }

  /**
   * `json_to_documents` yields, in the fixed section order, one document for each section
   * that has at least one pair, tagged with that section and holding the newline-joined
   * `[path] value` lines of its pairs; a section without pairs yields none.
   */
  lemma DocumentsBySection(py: Builtins, rule: KeyRule, rec: seq<(string, Value)>)
    ensures var docs := Documents(py, rule, rec); var src := Sources(SectionDocOf(py, rule, rec), Buckets(rec));
      && |docs| == |src|
      && (forall a, b | 0 <= a < b < |src| :: src[a] < src[b])
      && (forall k | 0 <= k < |docs| ::
            && 0 <= src[k] < |SectionNames|
            && InSection(docs[k], SectionNames[src[k]])
            && SectionPairs(py, rule, SectionNames[src[k]], Buckets(rec)[src[k]].1) != []
            && docs[k].content == Join("\n", Lines(SectionPairs(py, rule, SectionNames[src[k]], Buckets(rec)[src[k]].1))))
      && (forall i | 0 <= i < |SectionNames| :: SectionPairs(py, rule, SectionNames[i], Buckets(rec)[i].1) != [] ==> i in src)
  {
    CollectedDocsTagged(py, rule, rec, Buckets(rec));
    CollectedDocsComplete(py, rule, rec, Buckets(rec));
  }

  /** A section without pairs has no document. */
  lemma NoDocumentWithoutPairs(py: Builtins, rule: KeyRule, rec: seq<(string, Value)>, i: int)
    requires 0 <= i < |SectionNames|
    requires SectionPairs(py, rule, SectionNames[i], Buckets(rec)[i].1) == []
    ensures forall d | d in Documents(py, rule, rec) :: !InSection(d, SectionNames[i])
  {
    var docs := Documents(py, rule, rec);
    var src := Sources(SectionDocOf(py, rule, rec), Buckets(rec));
    DocumentsBySection(py, rule, rec);
    SectionNamesDistinct();
    forall k | 0 <= k < |docs| ensures !InSection(docs[k], SectionNames[i]) {
      assert src[k] != i;
    }
  }

  /**
   * As written, `json_to_documents` never yields a document for design_and_layout or
   * legal_and_product_status, whatever the record holds.
   */
  lemma NoAllowlistedSectionDocuments(py: Builtins, rec: seq<(string, Value)>)
    ensures forall d | d in Documents(py, AsWritten, rec) ::
      !InSection(d, "design_and_layout") && !InSection(d, "legal_and_product_status")
  {
    NoDesignDocument(py, rec);
    NoLegalDocument(py, rec);
    DesignSectionName();
    LegalSectionName();
  }

  lemma NoDesignDocument(py: Builtins, rec: seq<(string, Value)>)
    ensures forall d | d in Documents(py, AsWritten, rec) :: !InSection(d, SectionNames[1])
  {
    DesignSectionName();
    AllowlistedSectionsEmitNothing(py, Buckets(rec)[1].1);
    NoDocumentWithoutPairs(py, AsWritten, rec, 1);
  }

  lemma NoLegalDocument(py: Builtins, rec: seq<(string, Value)>)
    ensures forall d | d in Documents(py, AsWritten, rec) :: !InSection(d, SectionNames[5])
  {
    LegalSectionName();
    AllowlistedSectionsEmitNothing(py, Buckets(rec)[5].1);
    NoDocumentWithoutPairs(py, AsWritten, rec, 5);
  }

  /** A section with at least one pair has a document, holding the lines of its pairs. */
  lemma DocumentOfSection(py: Builtins, rule: KeyRule, rec: seq<(string, Value)>, i: int)
    requires 0 <= i < |SectionNames|
    requires SectionPairs(py, rule, SectionNames[i], Buckets(rec)[i].1) != []
    ensures exists d | d in Documents(py, rule, rec) ::
      InSection(d, SectionNames[i]) && d.content == Join("\n", Lines(SectionPairs(py, rule, SectionNames[i], Buckets(rec)[i].1)))
  {
    var docs := Documents(py, rule, rec);
    var src := Sources(SectionDocOf(py, rule, rec), Buckets(rec));
    DocumentsBySection(py, rule, rec);
    var k :| 0 <= k < |src| && src[k] == i;
    assert docs[k] in docs;
  }

  /** A section that yields exactly one pair has a document of exactly that pair's line. */
  lemma SinglePairDocument(py: Builtins, rule: KeyRule, rec: seq<(string, Value)>, i: int, section: string, pair: (string, string))
    requires 0 <= i < |SectionNames| && SectionNames[i] == section
    requires SectionPairs(py, rule, section, Buckets(rec)[i].1) == [pair]
    ensures exists d | d in Documents(py, rule, rec) :: InSection(d, section) && d.content == Line(pair)
  {
    DocumentOfSection(py, rule, rec, i);
    assert Join("\n", Lines([pair])) == Line(pair);
  }

  /** The second section handled is design_and_layout. */
  lemma DesignSectionName()
    ensures SectionNames[1] == "design_and_layout"
  {
  }

  lemma LegalSectionName()
    ensures SectionNames[5] == "legal_and_product_status"
  {
  }

  /** The design_and_layout bucket is the record's own design_and_layout object. */
  lemma DesignBucket(rec: seq<(string, Value)>)
    ensures Buckets(rec)[1].1 == GetOr(rec, "design_and_layout", Obj([]))
  {
  }

  /**
   * Under the intended key rule, a record whose design_and_layout holds a clean location
   * text gets a design_and_layout document with the line of that location.
   */
  lemma IntendedDesignLocationDocument(py: Builtins, rec: seq<(string, Value)>, t: string)
    requires GetOr(rec, "design_and_layout", Obj([])) == Obj([("location", Str(t))])
    requires CleanText(Strip(t))
    ensures exists d | d in Documents(py, Intended, rec) ::
      InSection(d, "design_and_layout") && d.content == Line(("design_and_layout.location", TruncateValue(Strip(t))))
  {
    var pair := ("design_and_layout.location", TruncateValue(Strip(t)));
    DesignLocationIndexedWhenIntended(py, t);
    DesignBucket(rec);
    DesignSectionName();
    SinglePairDocument(py, Intended, rec, 1, "design_and_layout", pair);
  }

  // ---------------------------------------------------------------------------
  // chunk_documents

  /** A chunk with `chunk_index` set to its position `i` among its document's chunks. */
  function Stamp(c: Document, i: int): Document
  {
    Document(c.content, c.metadata["chunk_index" := MInt(i)])
  }

  /** The chunks of one document, tagged 0, 1, ..., n-1 in order. */
  function Numbered(chs: seq<Document>): (r: seq<Document>)
    ensures |r| == |chs|
  {
    seq(|chs|, i requires 0 <= i < |chs| => Stamp(chs[i], i))
  }

  /**
   * `chunk_documents(docs)`, where `split` is the text splitter (with its chunk size,
   * overlap and separators) applied to one document: the tagged chunks of every
   * document, document after document.
   */
  function Chunks(split: Document -> seq<Document>, docs: seq<Document>): seq<Document>
  {
    if docs == [] then []
    else Chunks(split, docs[..|docs| - 1]) + Numbered(split(docs[|docs| - 1]))
  }

  /** The inner loop of `chunk_documents`: tag each chunk of one document with its index. */
  method NumberChunks(chs: seq<Document>) returns (r: seq<Document>)
    ensures r == Numbered(chs)
  {
    r := chs;
    var i := 0;
    while i < |r|
      invariant 0 <= i <= |r| == |chs|
      invariant forall k | 0 <= k < i :: r[k] == Stamp(chs[k], k)
      invariant forall k | i <= k < |r| :: r[k] == chs[k]
    {
      r := r[i := Stamp(r[i], i)];
      i := i + 1;
    }
  }

  /** `chunk_documents(docs)`: split each document and append its tagged chunks. */
  method ChunkDocuments(split: Document -> seq<Document>, docs: seq<Document>) returns (out: seq<Document>)
    ensures out == Chunks(split, docs)
  {
    out := [];
    for j := 0 to |docs|
      invariant out == Chunks(split, docs[..j])
    {
      var chs := NumberChunks(split(docs[j]));
      assert docs[..j + 1][..j] == docs[..j];
      out := out + chs;
    }
    assert docs[..|docs|] == docs;
  }

  /** The output for the first `j` documents is a prefix of the whole output. */
  lemma {:induction false} ChunksPrefix(split: Document -> seq<Document>, docs: seq<Document>, j: int)
    requires 0 <= j <= |docs|
    ensures |Chunks(split, docs[..j])| <= |Chunks(split, docs)|
    ensures Chunks(split, docs[..j]) == Chunks(split, docs)[..|Chunks(split, docs[..j])|]
  {
    if j < |docs| {
      var init := docs[..|docs| - 1];
      assert init[..j] == docs[..j];
      ChunksPrefix(split, init, j);
    } else {
      assert docs[..j] == docs;
    }
  }

  /**
   * Chunk `i` of document `j` sits right after the chunks of the documents before `j`,
   * with its content unchanged and `chunk_index` equal to `i`.
   */
  lemma ChunkAt(split: Document -> seq<Document>, docs: seq<Document>, j: int, i: int)
    requires 0 <= j < |docs| && 0 <= i < |split(docs[j])|
    ensures |Chunks(split, docs[..j])| + i < |Chunks(split, docs)|
    ensures Chunks(split, docs)[|Chunks(split, docs[..j])| + i] == Stamp(split(docs[j])[i], i)
  {
    assert docs[..j + 1][..j] == docs[..j];
    assert Chunks(split, docs[..j + 1]) == Chunks(split, docs[..j]) + Numbered(split(docs[j]));
    ChunksPrefix(split, docs, j + 1);
  }

  /** Whether output position `p` falls among the chunks of document `j`. */
  predicate FromDocument(split: Document -> seq<Document>, docs: seq<Document>, j: int, p: int)
    requires 0 <= j < |docs|
  {
    |Chunks(split, docs[..j])| <= p < |Chunks(split, docs[..j])| + |split(docs[j])|
  }

  /** Every output position falls among the chunks of some document. */
  lemma {:induction false} ChunkOrigin(split: Document -> seq<Document>, docs: seq<Document>, p: int)
    requires 0 <= p < |Chunks(split, docs)|
    ensures exists j | 0 <= j < |docs| :: FromDocument(split, docs, j, p)
  {
    var n := |docs| - 1;
    var init := docs[..n];
    if p < |Chunks(split, init)| {
      ChunkOrigin(split, init, p);
      var j :| 0 <= j < |init| && FromDocument(split, init, j, p);
      assert init[..j] == docs[..j];
      assert FromDocument(split, docs, j, p);
    } else {
      assert docs[..n] == init;
      assert FromDocument(split, docs, n, p);
    }
  }

  /** The output has as many chunks as the splitter gives for all documents together. */
  lemma {:induction false} ChunkCount(split: Document -> seq<Document>, docs: seq<Document>, j: int)
    requires 0 <= j < |docs|
    ensures |Chunks(split, docs[..j + 1])| == |Chunks(split, docs[..j])| + |split(docs[j])|
  {
    assert docs[..j + 1][..j] == docs[..j];
  }

  /**
   * An output chunk that falls among the chunks of document `j` is the chunk of `j` at
   * the same offset, tagged with that offset as its `chunk_index`.
   */
  lemma ChunkIndexOfPosition(split: Document -> seq<Document>, docs: seq<Document>, j: int, p: int)
    requires 0 <= j < |docs| && FromDocument(split, docs, j, p)
    ensures p < |Chunks(split, docs)|
    ensures var i := p - |Chunks(split, docs[..j])|;
      Chunks(split, docs)[p].content == split(docs[j])[i].content &&
      Chunks(split, docs)[p].metadata == split(docs[j])[i].metadata["chunk_index" := MInt(i)]
  {
    ChunkAt(split, docs, j, p - |Chunks(split, docs[..j])|);
  }

  /** The splitter copied every metadata entry of `d` onto each of its chunks. */
  predicate KeepsMetadata(d: Document, chs: seq<Document>)
  {
    forall c, k | c in chs && k in d.metadata :: k in c.metadata && c.metadata[k] == d.metadata[k]
  }

  /**
   * When the splitter copies a document's metadata onto its chunks, every output chunk
   * of that document carries that metadata, `chunk_index` apart.
   */
  lemma ChunkMetadataCopied(split: Document -> seq<Document>, docs: seq<Document>, j: int, i: int, k: string)
    requires 0 <= j < |docs| && 0 <= i < |split(docs[j])|
    requires KeepsMetadata(docs[j], split(docs[j]))
    requires k in docs[j].metadata && k != "chunk_index"
    ensures |Chunks(split, docs[..j])| + i < |Chunks(split, docs)|
    ensures var c := Chunks(split, docs)[|Chunks(split, docs[..j])| + i];
      k in c.metadata && c.metadata[k] == docs[j].metadata[k]
  {
    ChunkAt(split, docs, j, i);
    assert split(docs[j])[i] in split(docs[j]);
  }
}
