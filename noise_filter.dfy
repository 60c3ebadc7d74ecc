/**
 * The noise filter of the property-document pipeline (services/api/chunker.py):
 * which key-paths and which leaf texts are kept out of the indexed text, and how long
 * values are cut down.
 */
module NoiseFilter {
  import opened Wrappers
  import opened Values
  import opened Text

  /** Key-paths never indexed. */
  const NoiseKeys: set<string> := {
    "misc.created_at", "misc.updated_at",
    "design_and_layout.id", "design_and_layout.code", "design_and_layout.uuid",
    "physical_features.id", "physical_features.code",
    "legal_and_product_status.id", "legal_and_product_status.code",
    "equipment_and_handover_materials.id"
  }

  /** Allowed key-path prefixes of the design_and_layout section. */
  const DesignAllow: set<string> := {
    "design_and_layout.location",
    "design_and_layout.type",
    "design_and_layout.property_type",
    "design_and_layout.bedrooms",
    "design_and_layout.bathrooms",
    "design_and_layout.area",
    "design_and_layout.price",
    "design_and_layout.floor"
  }

  /** Allowed key-path prefixes of the legal_and_product_status section. */
  const LegalAllow: set<string> := {
    "legal_and_product_status.status",
    "legal_and_product_status.red_book",
    "legal_and_product_status.ownership"
  }

  /** Per-section allowlists of key-path prefixes; an empty set allows every path. */
  const AllowSections: map<string, set<string>> := map[
    "design_and_layout" := DesignAllow,
    "living_experience" := {},
    "physical_features" := {},
    "legal_and_product_status" := LegalAllow
  ]

  const MinValueChars: nat := 4
  const MaxValueChars: nat := 600
  const MaxListItemsPerSection: nat := 50

  // ---------------------------------------------------------------------------
  // Key-paths

  /** The last path segments that mark identifiers and timestamps. */
  const NoiseSuffixWords: seq<string> := ["id", "uuid", "code", "created_at", "updated_at"]

  /** A regex `$` without MULTILINE: the end of the text, or just before a final newline. */
  predicate IsLineEnd(rest: string)
  {
    rest == "" || rest == "\n"
  }

  /** `(?:\[.*\])?$`: an optional bracketed part holding no newline, then the end. */
  predicate BracketTail(rest: string)
  {
    || IsLineEnd(rest)
    || (|rest| >= 2 && rest[0] == '[' && rest[|rest| - 1] == ']' && '\n' !in rest[1..|rest| - 1])
    || (|rest| >= 3 && rest[0] == '[' && rest[|rest| - 2] == ']' && rest[|rest| - 1] == '\n'
        && '\n' !in rest[1..|rest| - 2])
  }

  /** `t` begins, in any case `Lower` folds, with a noise word and continues with a BracketTail. */
  predicate SuffixMatch(t: string)
  {
    exists w | w in NoiseSuffixWords :: WordMatch(t, w)
  }

  /** `t` begins with `w` in any case `Lower` folds and continues with a BracketTail. */
  predicate WordMatch(t: string, w: string)
  {
    |w| <= |t| && Lower(t[..|w|]) == w && BracketTail(t[|w|..])
  }

  /**
   * `RE_KEY_NOISE_SUFFIX.search(path)` for the pattern
   * `(?:^|\.)(?:id|uuid|code|created_at|updated_at)(?:\[.*\])?$` with IGNORECASE:
   * a match starts at the beginning or just after a dot.
   */
  predicate HasNoiseSuffix(path: string)
  {
    SuffixMatch(path) || exists i | 0 <= i < |path| :: DotMatchAt(path, i)
  }

  /** The character at `i` is a dot and the suffix pattern matches right after it. */
  predicate DotMatchAt(path: string, i: int)
  {
    0 <= i < |path| && path[i] == '.' && SuffixMatch(path[i + 1..])
  }

  /** The section has a non-empty allowlist and `path` starts with none of its prefixes. */
  predicate AllowlistRejects(path: string, section: Option<string>)
  {
    && section.Some? && section.value != ""
    && section.value in AllowSections && AllowSections[section.value] != {}
    && !exists p | p in AllowSections[section.value] :: p <= path
  }

  /** `_is_noise_key(path, section)`. */
  predicate IsNoiseKey(path: string, section: Option<string>)
  {
    path in NoiseKeys || HasNoiseSuffix(path) || AllowlistRejects(path, section)
  }

  /** A key whose last segment is a noise word, in any case, with an optional bracketed index. */
  lemma SuffixMatchOfWord(key: string, bracket: string)
    requires Lower(key) in NoiseSuffixWords
    requires BracketTail(bracket)
    ensures SuffixMatch(key + bracket)
  {
    var t := key + bracket;
    var w := Lower(key);
    assert t[..|w|] == key;
    assert t[|w|..] == bracket;
  }

  /** A match of the suffix pattern just after the dot at `i`. */
  lemma DotSuffixMatch(path: string, i: int)
    requires 0 <= i < |path| && path[i] == '.' && SuffixMatch(path[i + 1..])
    ensures HasNoiseSuffix(path)
  {
    assert DotMatchAt(path, i);
  }

  /**
   * A path whose last dot-segment is id, uuid, code, created_at or updated_at (any
   * case, optionally followed by a bracketed index) is noise under every section,
   * whatever the allowlists say.
   */
  lemma NoiseWordSegmentAlwaysNoise(parent: string, key: string, bracket: string)
    requires Lower(key) in NoiseSuffixWords
    requires BracketTail(bracket)
    ensures HasNoiseSuffix(parent + "." + key + bracket)
  {
    SuffixMatchOfWord(key, bracket);
    DotThenSuffix(parent, key, bracket);
  }

  /** A suffix match right after a dot makes the whole path match. */
  lemma DotThenSuffix(parent: string, key: string, bracket: string)
    requires SuffixMatch(key + bracket)
    ensures HasNoiseSuffix(parent + "." + key + bracket)
  {
    var t := key + bracket;
    var path := parent + "." + key + bracket;
    assert path == parent + "." + t;
    assert path[|parent|] == '.';
    assert path[|parent| + 1..] == t;
    DotSuffixMatch(path, |parent|);
  }

  /** The suffix rule alone makes a path noise, under every section. */
  lemma SuffixImpliesNoiseKey(path: string, section: Option<string>)
    requires HasNoiseSuffix(path)
    ensures IsNoiseKey(path, section)
  {
  }

  /** `parent.key` for a noise word `key` is caught by the suffix rule. */
  lemma NoiseWordKey(parent: string, key: string, path: string)
    requires key in NoiseSuffixWords && path == parent + "." + key
    ensures HasNoiseSuffix(path)
  {
    assert Lower(key) == key;
    NoiseWordSegmentAlwaysNoise(parent, key, "");
    assert parent + "." + key + "" == path;
  }

  /** Every key of the denylist is already caught by the suffix rule. */
  lemma NoiseKeysHaveNoiseSuffix()
    ensures forall p | p in NoiseKeys :: HasNoiseSuffix(p)
  {
    forall p | p in NoiseKeys ensures HasNoiseSuffix(p) {
      if p == "misc.created_at" { NoiseWordKey("misc", "created_at", p); }
      else if p == "misc.updated_at" { NoiseWordKey("misc", "updated_at", p); }
      else if p == "design_and_layout.id" { NoiseWordKey("design_and_layout", "id", p); }
      else if p == "design_and_layout.code" { NoiseWordKey("design_and_layout", "code", p); }
      else if p == "design_and_layout.uuid" { NoiseWordKey("design_and_layout", "uuid", p); }
      else if p == "physical_features.id" { NoiseWordKey("physical_features", "id", p); }
      else if p == "physical_features.code" { NoiseWordKey("physical_features", "code", p); }
      else if p == "legal_and_product_status.id" { NoiseWordKey("legal_and_product_status", "id", p); }
      else if p == "legal_and_product_status.code" { NoiseWordKey("legal_and_product_status", "code", p); }
      else { NoiseWordKey("equipment_and_handover_materials", "id", p); }
    }
  }

  /** No prefix in `allowed` is as short as `path`, so none is a prefix of it. */
  lemma ShortPathRejected(path: string, allowed: set<string>)
    requires forall p | p in allowed :: |p| > |path|
    ensures !exists p | p in allowed :: p <= path
  {
  }

  /**
   * The bare names of the two sections with a non-empty allowlist start with none of
   * their own allowed prefixes, so the root path of each is noise.
   */
  lemma AllowlistedSectionRootsAreNoise()
    ensures IsNoiseKey("design_and_layout", Some("design_and_layout"))
    ensures IsNoiseKey("legal_and_product_status", Some("legal_and_product_status"))
  {
    assert AllowSections["design_and_layout"] == DesignAllow;
    ShortPathRejected("design_and_layout", DesignAllow);
    assert AllowlistRejects("design_and_layout", Some("design_and_layout"));
    assert AllowSections["legal_and_product_status"] == LegalAllow;
    ShortPathRejected("legal_and_product_status", LegalAllow);
    assert AllowlistRejects("legal_and_product_status", Some("legal_and_product_status"));
  }

  /** `path` is a proper ancestor of the key-path `p`: `p` continues it with a `.key` or `[i]` segment. */
  predicate IsAncestorPath(path: string, p: string)
  {
    |path| < |p| && p[..|path|] == path && (p[|path|] == '.' || p[|path|] == '[')
  }

  /**
   * The allowlist rule as its comment describes it ("only keep keys starting with an
   * allowed prefix"): a path on the way down to an allowed prefix is not rejected,
   * so the walk can reach the allowed keys.
   */
  predicate IntendedAllowlistRejects(path: string, section: Option<string>)
  {
    && AllowlistRejects(path, section)
    && !exists p | p in AllowSections[section.value] :: IsAncestorPath(path, p)
  }

  /** `_is_noise_key` with the allowlist rule read as intended. */
  predicate IsNoiseKeyIntended(path: string, section: Option<string>)
  {
    path in NoiseKeys || HasNoiseSuffix(path) || IntendedAllowlistRejects(path, section)
  }

  /**
   * The intended rule only lets more paths through, and it differs from the rule as
   * written exactly on the ancestors of allowed prefixes.
   */
  lemma IntendedRuleDiffersOnAncestorsOnly(path: string, section: Option<string>)
    ensures IsNoiseKeyIntended(path, section) ==> IsNoiseKey(path, section)
    ensures IsNoiseKey(path, section) && !IsNoiseKeyIntended(path, section) <==>
      && AllowlistRejects(path, section) && path !in NoiseKeys && !HasNoiseSuffix(path)
      && exists p | p in AllowSections[section.value] :: IsAncestorPath(path, p)
  {
  }

  /** A text whose first letter starts none of the noise words cannot match the suffix pattern there. */
  lemma NoSuffixMatchByFirstChar(t: string)
    requires t != [] && LowerChar(t[0]) != 'i' && LowerChar(t[0]) != 'u' && LowerChar(t[0]) != 'c'
    ensures !SuffixMatch(t)
  {
    forall w | w in NoiseSuffixWords && |w| <= |t| ensures Lower(t[..|w|]) != w {
      assert Lower(t[..|w|])[0] == LowerChar(t[0]);
    }
  }

  /** A single dot-free segment starting with such a letter has no noise suffix. */
  lemma NoNoiseSuffixOfSegment(s: string)
    requires s != [] && '.' !in s
    requires LowerChar(s[0]) != 'i' && LowerChar(s[0]) != 'u' && LowerChar(s[0]) != 'c'
    ensures !HasNoiseSuffix(s)
  {
    NoSuffixMatchByFirstChar(s);
    forall i | 0 <= i < |s| ensures s[i] != '.' {
      assert s[i] in s;
    }
  }

  /**
   * A two-segment path `a.b` whose segments hold no dot and start with a letter that
   * starts no noise word has no noise suffix.
   */
  lemma NoNoiseSuffixOfTwoSegments(a: string, b: string)
    requires a != [] && '.' !in a && LowerChar(a[0]) != 'i' && LowerChar(a[0]) != 'u' && LowerChar(a[0]) != 'c'
    requires b != [] && '.' !in b && LowerChar(b[0]) != 'i' && LowerChar(b[0]) != 'u' && LowerChar(b[0]) != 'c'
    ensures !HasNoiseSuffix(a + "." + b)
  {
    var path := a + "." + b;
    assert path[0] == a[0];
    NoSuffixMatchByFirstChar(path);
    forall i | 0 <= i < |path| && path[i] == '.' ensures !SuffixMatch(path[i + 1..]) {
      if i == |a| {
        assert path[i + 1..] == b;
        NoSuffixMatchByFirstChar(b);
      }
    }
  }

  /** The root of design_and_layout lies on the way down to its allowed prefixes. */
  lemma DesignRootIsAncestor()
    ensures !IntendedAllowlistRejects("design_and_layout", Some("design_and_layout"))
  {
    assert AllowSections["design_and_layout"] == DesignAllow;
    assert "design_and_layout.location" in DesignAllow;
    assert IsAncestorPath("design_and_layout", "design_and_layout.location");
  }

  /** The root of legal_and_product_status lies on the way down to its allowed prefixes. */
  lemma LegalRootIsAncestor()
    ensures !IntendedAllowlistRejects("legal_and_product_status", Some("legal_and_product_status"))
  {
    assert AllowSections["legal_and_product_status"] == LegalAllow;
    assert "legal_and_product_status.status" in LegalAllow;
    assert IsAncestorPath("legal_and_product_status", "legal_and_product_status.status");
  }

  /** No section root is on the denylist. */
  lemma SectionRootsNotDenylisted()
    ensures "design_and_layout" !in NoiseKeys && "legal_and_product_status" !in NoiseKeys
  {
  }

  /** Under the intended rule the root of design_and_layout is kept. */
  lemma DesignRootKeptWhenIntended()
    ensures !IsNoiseKeyIntended("design_and_layout", Some("design_and_layout"))
  {
    SectionRootsNotDenylisted();
    NoNoiseSuffixOfSegment("design_and_layout");
    DesignRootIsAncestor();
  }

  /** Under the intended rule the root of legal_and_product_status is kept. */
  lemma LegalRootKeptWhenIntended()
    ensures !IsNoiseKeyIntended("legal_and_product_status", Some("legal_and_product_status"))
  {
    SectionRootsNotDenylisted();
    NoNoiseSuffixOfSegment("legal_and_product_status");
    LegalRootIsAncestor();
  }

  /** Sections without an allowlist, or with an empty one, are filtered by the denylist and suffix rule only. */
  lemma UnrestrictedSectionsOnlyDenylist(path: string, section: Option<string>)
    requires section.None? || section.value !in AllowSections || AllowSections[section.value] == {}
    ensures IsNoiseKey(path, section) <==> path in NoiseKeys || HasNoiseSuffix(path)
  {
  }

  // ---------------------------------------------------------------------------
  // Leaf values

  /**
   * A character of `\w` that is neither a decimal digit nor `_`: ASCII letters and the
   * Latin letters of Latin-1, Latin Extended-A/B and Latin Extended Additional.
   */
  predicate IsLetter(c: char)
  {
    || 'a' <= c <= 'z' || 'A' <= c <= 'Z'
    || c == '\U{00AA}' || c == '\U{00B5}' || c == '\U{00BA}'
    || '\U{00C0}' <= c <= '\U{00D6}' || '\U{00D8}' <= c <= '\U{00F6}'
    || '\U{00F8}' <= c <= '\U{024F}' || '\U{1E00}' <= c <= '\U{1EFF}'
  }

  /** `\w`. */
  predicate IsWordChar(c: char)
  {
    IsLetter(c) || IsDigit(c) || c == '_'
  }

  /** `RE_MOSTLY_NUMERIC.match(text)` for `^[\d\W_]+$`: non-empty and without letters. */
  predicate MostlyNumeric(text: string)
  {
    |text| > 0 && forall i :: 0 <= i < |text| ==> !IsLetter(text[i])
  }

  predicate IsHexDigit(c: char)
  {
    IsDigit(c) || 'a' <= c <= 'f' || 'A' <= c <= 'F'
  }

  /** Position `j` of `8-4-[1-5]3-[89ab]3-12` (case-insensitive) admits `c`. */
  predicate UuidCharFits(j: int, c: char)
  {
    if j == 8 || j == 13 || j == 18 || j == 23 then c == '-'
    else if j == 14 then '1' <= c <= '5'
    else if j == 19 then c in "89abAB"
    else IsHexDigit(c)
  }

  /** `RE_UUID_LIKE` matches at `i`, word boundaries included. */
  predicate UuidAt(s: string, i: int)
  {
    && 0 <= i && i + 36 <= |s|
    && (forall j | i <= j < i + 36 :: UuidCharFits(j - i, s[j]))
    && (i == 0 || !IsWordChar(s[i - 1]))
    && (i + 36 == |s| || !IsWordChar(s[i + 36]))
  }

  predicate HasUuid(s: string)
  {
    exists i | 0 <= i <= |s| :: UuidAt(s, i)
  }

  /** `https?://\S+` matches at `i`. */
  predicate UrlAt(s: string, i: int)
  {
    || (OccursAt(s, "http://", i) && i + 7 < |s| && !IsSpace(s[i + 7]))
    || (OccursAt(s, "https://", i) && i + 8 < |s| && !IsSpace(s[i + 8]))
  }

  predicate HasUrl(s: string)
  {
    exists i | 0 <= i <= |s| :: UrlAt(s, i)
  }

  predicate IsCodeyChar(c: char)
  {
    c in "{}[];<>"
  }

  /** Three characters of `{}[];<>` in a row start at `i`. */
  predicate CodeyRunAt(s: string, i: int)
  {
    0 <= i && i + 3 <= |s| && IsCodeyChar(s[i]) && IsCodeyChar(s[i + 1]) && IsCodeyChar(s[i + 2])
  }

  /** `RE_CODEY.search(s)` for `[{}[\];<>]{3,}`: three such characters in a row. */
  predicate HasCodeyRun(s: string)
  {
    exists i | 0 <= i <= |s| :: CodeyRunAt(s, i)
  }

  /** `_is_noise_value(text)`. */
  predicate IsNoiseValue(text: string)
  {
    || text == "" || |text| < MinValueChars
    || MostlyNumeric(text)
    || HasUuid(text)
    || HasUrl(text)
    || HasCodeyRun(text)
  }

  /** The rendering of any Python int is noise: it is made of digits and at most a minus sign. */
  lemma IntTextIsNoise(i: int)
    ensures IsNoiseValue(IntToString(i))
  {
    var s := IntToString(i);
    var n := if i < 0 then -i else i;
    var d := NatToString(n);
    assert forall k :: 0 <= k < |d| ==> !IsLetter(d[k]);
    if i < 0 {
      assert s == "-" + d;
      forall k | 0 <= k < |s| ensures !IsLetter(s[k]) {
        if k > 0 { assert s[k] == d[k - 1]; }
      }
    }
    assert MostlyNumeric(s);
  }

  // ---------------------------------------------------------------------------
  // Truncation

  /** `_truncate_value(text)`: at most 600 characters kept, with `…` marking a cut. */
  function TruncateValue(text: string): (r: string)
    ensures |r| <= MaxValueChars + 1
    ensures |text| <= MaxValueChars ==> r == text
    ensures |text| > MaxValueChars ==> r == text[..MaxValueChars] + [Ellipsis]
  {
    if text == [] then text else Ellipsize(text, MaxValueChars)
  }

  lemma TruncateValueIdempotent(text: string)
    ensures TruncateValue(TruncateValue(text)) == TruncateValue(text)
  {
    EllipsizeIdempotent(text, MaxValueChars);
  }
}
