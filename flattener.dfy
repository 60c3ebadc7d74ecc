/**
 * `_flatten` of services/api/chunker.py: a depth-first walk of a JSON value that emits
 * `(key-path, text)` pairs, skipping noisy key-paths with their whole subtree, reading
 * at most 50 items of every list, dropping noisy leaf texts and cutting long ones down.
 *
 * The section handed to `_flatten` never changes below the root, so the key test the
 * walk applies is `_is_noise_key(·, section)` for one fixed section: `Walk` takes that
 * test as a function `noisy`, and `FlattenPairs` instantiates it with `KeyFilter`.
 * `Walk` is the specification; the methods `Rec` and `Flatten` are the walk written as
 * the source writes it, appending to an output list, and are proved to compute it.
 */
module Flattener {
  import opened Wrappers
  import opened Values
  import opened Text
  import opened NoiseFilter
  import opened Seqs

  /** Which key-path rule the walk applies: `_is_noise_key` as written, or with the allowlist fix. */
  datatype KeyRule = AsWritten | Intended

  predicate KeyIsNoise(rule: KeyRule, path: string, section: Option<string>)
  {
    match rule
    case AsWritten => IsNoiseKey(path, section)
    case Intended => IsNoiseKeyIntended(path, section)
  }

  /** The key test of one walk: `_is_noise_key(·, section)`. */
  function KeyFilter(rule: KeyRule, section: Option<string>): string -> bool
  {
    p => KeyIsNoise(rule, p, section)
  }

  /** The path of the child under key `k`: `f"{path}.{k}" if path else k`. */
  function KeyPath(path: string, k: string): (r: string)
    ensures path != "" ==> |r| > |path| && r[..|path|] == path && r[|path|] == '.'
    ensures path == "" ==> r == k
  {
    if path != "" then path + "." + k else k
  }

  /** The path of the list item at index `i`: `f"{path}[{i}]"`. */
  function IndexPath(path: string, i: nat): (r: string)
    ensures |r| > |path| && r[..|path|] == path && r[|path|] == '['
  {
    path + "[" + NatToString(i) + "]"
  }

  /** `to_str(x).strip()` for a leaf: None renders as the empty text. */
  function LeafText(py: Builtins, v: Value): string
  {
    if v.Null? then "" else Strip(ToStr(py, v))
  }

  /**
   * The pair a leaf text yields: none when it is empty or noise, else the truncated text.
   * A kept text holds a letter, and what is emitted has 4 to 601 characters: the text
   * itself when it has at most 600, else its first 600 and `…`.
   */
  function KeepText(text: string, path: string): (r: seq<(string, string)>)
    ensures |r| <= 1
    ensures r != [] <==> !IsNoiseValue(text)
    ensures r != [] ==> r[0].0 == path && MinValueChars <= |r[0].1| <= MaxValueChars + 1
    ensures r != [] ==> exists i | 0 <= i < |text| :: IsLetter(text[i])
    ensures r != [] && |text| <= MaxValueChars ==> r[0].1 == text
    ensures r != [] && |text| > MaxValueChars ==> r[0].1 == text[..MaxValueChars] + [Ellipsis]
  {
    if text == "" || IsNoiseValue(text) then [] else [(path, TruncateValue(text))]
  }

  /** What a leaf contributes. */
  function LeafPairs(py: Builtins, v: Value, path: string): seq<(string, string)>
  {
    KeepText(LeafText(py, v), path)
  }

  /** The items a list contributes: `node[:MAX_LIST_ITEMS_PER_SECTION]`. */
  function Capped(items: seq<Value>): (r: seq<Value>)
    ensures r <= items && |r| == if |items| <= MaxListItemsPerSection then |items| else MaxListItemsPerSection
  {
    if |items| <= MaxListItemsPerSection then items else items[..MaxListItemsPerSection]
  }

  /** `rec(node, path, section)` for the key test `noisy`: the pairs emitted for `node` reached at `path`. */
  function Walk(py: Builtins, noisy: string -> bool, node: Value, path: string): seq<(string, string)>
    decreases node, 1
  {
    if path != "" && noisy(path) then []
    else
      match node
      case Obj(fields) => WalkFields(py, noisy, node, fields, path)
      case Arr(items) => WalkItems(py, noisy, node, Capped(items), path)
      case _ => LeafPairs(py, node, path)
  }

  /** The pairs of the first `|fields|` children of the object `parent`, in insertion order. */
  function WalkFields(py: Builtins, noisy: string -> bool, ghost parent: Value, fields: seq<(string, Value)>,
                      path: string): seq<(string, string)>
    requires parent.Obj? && fields <= parent.fields
    decreases parent, 0, |fields|
  {
    if fields == [] then []
    else
      var n := |fields| - 1;
      assert fields[n] in parent.fields;
      WalkFields(py, noisy, parent, fields[..n], path) + Walk(py, noisy, fields[n].1, KeyPath(path, fields[n].0))
  }

  /** The pairs of the first `|items|` items of the list `parent`, each at its index. */
  function WalkItems(py: Builtins, noisy: string -> bool, ghost parent: Value, items: seq<Value>,
                     path: string): seq<(string, string)>
    requires parent.Arr? && items <= parent.items
    decreases parent, 0, |items|
  {
    if items == [] then []
    else
      var n := |items| - 1;
      assert items[n] in parent.items;
      WalkItems(py, noisy, parent, items[..n], path) + Walk(py, noisy, items[n], IndexPath(path, n))
  }

  /** `_flatten(node, prefix=path, section=section)` under the key rule `rule`. */
  function FlattenPairs(py: Builtins, rule: KeyRule, node: Value, path: string, section: Option<string>)
    : seq<(string, string)>
  {
    Walk(py, KeyFilter(rule, section), node, path)
  }

  /** One more child of the object: its pairs follow those of the earlier children. */
  lemma WalkFieldsStep(py: Builtins, noisy: string -> bool, parent: Value, i: nat, path: string)
    requires parent.Obj? && i < |parent.fields|
    ensures WalkFields(py, noisy, parent, parent.fields[..i + 1], path)
         == WalkFields(py, noisy, parent, parent.fields[..i], path)
            + Walk(py, noisy, parent.fields[i].1, KeyPath(path, parent.fields[i].0))
  {
    assert parent.fields[..i + 1][..i] == parent.fields[..i];
  }

  /** One more list item: its pairs follow those of the earlier items. */
  lemma WalkItemsStep(py: Builtins, noisy: string -> bool, parent: Value, items: seq<Value>, i: nat, path: string)
    requires parent.Arr? && items <= parent.items && i < |items|
    ensures WalkItems(py, noisy, parent, items[..i + 1], path)
         == WalkItems(py, noisy, parent, items[..i], path) + Walk(py, noisy, items[i], IndexPath(path, i))
  {
    assert items[..i + 1][..i] == items[..i];
  }

  // ---------------------------------------------------------------------------
  // The walk as written: `rec` appending to `out`

  /** `rec(node, path, section)` run with `out` already holding `acc`. */
  method Rec(py: Builtins, noisy: string -> bool, node: Value, path: string, acc: seq<(string, string)>)
    returns (out: seq<(string, string)>)
    ensures out == acc + Walk(py, noisy, node, path)
    decreases node, 1
  {
    out := acc;
    if path != "" && noisy(path) {
      return;
    }
    match node
    case Obj(fields) =>
      out := RecFields(py, noisy, node, path, acc);
    case Arr(items) =>
      out := RecItems(py, noisy, node, path, acc);
    case _ =>
      var text := LeafText(py, node);
      if text == "" || IsNoiseValue(text) {
        return;
      }
      out := out + [(path, TruncateValue(text))];
  }

  /** The `for k, v in node.items()` loop of `rec`. */
  method RecFields(py: Builtins, noisy: string -> bool, node: Value, path: string, acc: seq<(string, string)>)
    returns (out: seq<(string, string)>)
    requires node.Obj?
    ensures out == acc + WalkFields(py, noisy, node, node.fields, path)
    decreases node, 0
  {
    var fields := node.fields;
    out := acc;
    var i := 0;
    while i < |fields|
      invariant 0 <= i <= |fields|
      invariant out == acc + WalkFields(py, noisy, node, fields[..i], path)
    {
      assert fields[i] in fields;
      ghost var done := WalkFields(py, noisy, node, fields[..i], path);
      ghost var next := Walk(py, noisy, fields[i].1, KeyPath(path, fields[i].0));
      out := Rec(py, noisy, fields[i].1, KeyPath(path, fields[i].0), out);
      AppendAssoc(acc, done, next);
      WalkFieldsStep(py, noisy, node, i, path);
      i := i + 1;
    }
    assert fields[..i] == fields;
  }

  /** The `for i, v in enumerate(node[:MAX_LIST_ITEMS_PER_SECTION])` loop of `rec`. */
  method RecItems(py: Builtins, noisy: string -> bool, node: Value, path: string, acc: seq<(string, string)>)
    returns (out: seq<(string, string)>)
    requires node.Arr?
    ensures out == acc + WalkItems(py, noisy, node, Capped(node.items), path)
    decreases node, 0
  {
    var capped := Capped(node.items);
    out := acc;
    var i := 0;
    while i < |capped|
      invariant 0 <= i <= |capped|
      invariant out == acc + WalkItems(py, noisy, node, capped[..i], path)
    {
      assert capped[i] in node.items;
      ghost var done := WalkItems(py, noisy, node, capped[..i], path);
      ghost var next := Walk(py, noisy, capped[i], IndexPath(path, i));
      out := Rec(py, noisy, capped[i], IndexPath(path, i), out);
      AppendAssoc(acc, done, next);
      WalkItemsStep(py, noisy, node, capped, i, path);
      i := i + 1;
    }
    assert capped[..i] == capped;
  }

  /** `_flatten(obj, prefix, section)`. */
  method Flatten(py: Builtins, rule: KeyRule, obj: Value, prefix: string, section: Option<string>)
    returns (out: seq<(string, string)>)
    ensures out == FlattenPairs(py, rule, obj, prefix, section)
  {
    out := Rec(py, KeyFilter(rule, section), obj, prefix, []);
  }

  // ---------------------------------------------------------------------------
  // Traversal order

  /** The pairs of each child of an object, in insertion order. */
  function ChildWalks(py: Builtins, noisy: string -> bool, fields: seq<(string, Value)>, path: string)
    : seq<seq<(string, string)>>
  {
    seq(|fields|, i requires 0 <= i < |fields| => Walk(py, noisy, fields[i].1, KeyPath(path, fields[i].0)))
  }

  /** The pairs of each list item, at its index. */
  function ItemWalks(py: Builtins, noisy: string -> bool, items: seq<Value>, path: string)
    : seq<seq<(string, string)>>
  {
    seq(|items|, i requires 0 <= i < |items| => Walk(py, noisy, items[i], IndexPath(path, i)))
  }

  lemma {:induction false} WalkFieldsIsConcat(py: Builtins, noisy: string -> bool, parent: Value,
                                              fields: seq<(string, Value)>, path: string)
    requires parent.Obj? && fields <= parent.fields
    ensures WalkFields(py, noisy, parent, fields, path) == Concat(ChildWalks(py, noisy, fields, path))
    decreases |fields|
  {
    if fields != [] {
      var n := |fields| - 1;
      WalkFieldsIsConcat(py, noisy, parent, fields[..n], path);
      assert ChildWalks(py, noisy, fields, path)[..n] == ChildWalks(py, noisy, fields[..n], path);
    }
  }

  lemma {:induction false} WalkItemsIsConcat(py: Builtins, noisy: string -> bool, parent: Value,
                                             items: seq<Value>, path: string)
    requires parent.Arr? && items <= parent.items
    ensures WalkItems(py, noisy, parent, items, path) == Concat(ItemWalks(py, noisy, items, path))
    decreases |items|
  {
    if items != [] {
      var n := |items| - 1;
      WalkItemsIsConcat(py, noisy, parent, items[..n], path);
      assert ItemWalks(py, noisy, items, path)[..n] == ItemWalks(py, noisy, items[..n], path);
    }
  }

  /** Below a kept path, an object's pairs are its children's pairs, child after child in insertion order. */
  lemma ObjectWalkInOrder(py: Builtins, noisy: string -> bool, fields: seq<(string, Value)>, path: string)
    requires path == "" || !noisy(path)
    ensures Walk(py, noisy, Obj(fields), path) == Concat(ChildWalks(py, noisy, fields, path))
  {
    WalkFieldsIsConcat(py, noisy, Obj(fields), fields, path);
  }

  /** Below a kept path, a list's pairs are those of its first 50 items, item after item, at their indices. */
  lemma ListWalkInOrder(py: Builtins, noisy: string -> bool, items: seq<Value>, path: string)
    requires path == "" || !noisy(path)
    ensures Walk(py, noisy, Arr(items), path) == Concat(ItemWalks(py, noisy, Capped(items), path))
  {
    WalkItemsIsConcat(py, noisy, Arr(items), Capped(items), path);
  }

  /** Items past the 50th never contribute. */
  lemma ListBeyondCapIgnored(py: Builtins, noisy: string -> bool, items: seq<Value>, path: string)
    requires |items| > MaxListItemsPerSection
    ensures Walk(py, noisy, Arr(items), path) == Walk(py, noisy, Arr(items[..MaxListItemsPerSection]), path)
  {
    if path == "" || !noisy(path) {
      ListWalkInOrder(py, noisy, items, path);
      ListWalkInOrder(py, noisy, items[..MaxListItemsPerSection], path);
      assert Capped(items[..MaxListItemsPerSection]) == Capped(items);
    }
  }

  // ---------------------------------------------------------------------------
  // What the walk emits

  /** A noisy key-path contributes nothing, whatever lies below it. */
  lemma NoisyPathSkipsSubtree(py: Builtins, rule: KeyRule, node: Value, path: string, section: Option<string>)
    requires path != "" && KeyIsNoise(rule, path, section)
    ensures FlattenPairs(py, rule, node, path, section) == []
  {
  }

  /** A text the walk keeps: stripped, non-empty and not noise. */
  predicate CleanText(t: string)
  {
    Stripped(t) && !IsNoiseValue(t)
  }

  /**
   * A pair the walk may emit below `root`: its path extends `root` and passes the key
   * test, and its text is a clean text truncated to at most 601 characters.
   */
  ghost predicate CleanPair(noisy: string -> bool, root: string, pair: (string, string))
  {
    && root <= pair.0
    && (pair.0 != "" ==> !noisy(pair.0))
    && MinValueChars <= |pair.1| <= MaxValueChars + 1
    && exists t :: CleanText(t) && pair.1 == TruncateValue(t)
  }

  lemma PrefixTrans(a: string, b: string, c: string)
    requires a <= b && b <= c
    ensures a <= c
  {
    assert c[..|a|] == b[..|a|];
  }

  /** The text of a leaf has no whitespace at either end. */
  lemma {:induction false} LeafTextStripped(py: Builtins, leaf: Value)
    ensures Stripped(LeafText(py, leaf))
  {
  }

  /** The pair a stripped text yields at a kept path, if any, is clean. */
  lemma TextPairClean(noisy: string -> bool, text: string, path: string)
    requires Stripped(text)
    requires path == "" || !noisy(path)
    ensures var r := KeepText(text, path); r == [] || CleanPair(noisy, path, r[0])
  {
    var r := KeepText(text, path);
    if r != [] {
      assert |text| >= MinValueChars;
      assert CleanText(text) && r[0].1 == TruncateValue(text);
    }
  }

  /** The pair of a kept leaf, if any, is clean. */
  lemma {:induction false} LeafPairsClean(py: Builtins, noisy: string -> bool, leaf: Value, path: string)
    requires path == "" || !noisy(path)
    ensures var r := LeafPairs(py, leaf, path); r == [] || CleanPair(noisy, path, r[0])
  {
    LeafTextStripped(py, leaf);
    TextPairClean(noisy, LeafText(py, leaf), path);
  }

  /** Every pair the walk emits below `path` is clean. */
  lemma {:induction false} WalkClean(py: Builtins, noisy: string -> bool, node: Value, path: string)
    ensures forall pair | pair in Walk(py, noisy, node, path) :: CleanPair(noisy, path, pair)
    decreases node, 1
  {
    var r := Walk(py, noisy, node, path);
    if path != "" && noisy(path) {
    } else if node.Obj? {
      WalkFieldsClean(py, noisy, node, node.fields, path);
    } else if node.Arr? {
      WalkItemsClean(py, noisy, node, Capped(node.items), path);
    } else {
      LeafPairsClean(py, noisy, node, path);
      assert r == [] || r == [r[0]];
    }
  }

  lemma {:induction false} WalkFieldsClean(py: Builtins, noisy: string -> bool, parent: Value,
                                           fields: seq<(string, Value)>, path: string)
    requires parent.Obj? && fields <= parent.fields
    ensures forall pair | pair in WalkFields(py, noisy, parent, fields, path) :: CleanPair(noisy, path, pair)
    decreases parent, 0, |fields|
  {
    if fields != [] {
      var n := |fields| - 1;
      assert fields[n] in parent.fields;
      var child := KeyPath(path, fields[n].0);
      WalkFieldsClean(py, noisy, parent, fields[..n], path);
      WalkClean(py, noisy, fields[n].1, child);
      forall pair | pair in Walk(py, noisy, fields[n].1, child) ensures CleanPair(noisy, path, pair) {
        PrefixTrans(path, child, pair.0);
      }
    }
  }

  lemma {:induction false} WalkItemsClean(py: Builtins, noisy: string -> bool, parent: Value,
                                          items: seq<Value>, path: string)
    requires parent.Arr? && items <= parent.items
    ensures forall pair | pair in WalkItems(py, noisy, parent, items, path) :: CleanPair(noisy, path, pair)
    decreases parent, 0, |items|
  {
    if items != [] {
      var n := |items| - 1;
      assert items[n] in parent.items;
      var child := IndexPath(path, n);
      WalkItemsClean(py, noisy, parent, items[..n], path);
      WalkClean(py, noisy, items[n], child);
      forall pair | pair in Walk(py, noisy, items[n], child) ensures CleanPair(noisy, path, pair) {
        PrefixTrans(path, child, pair.0);
      }
    }
  }

  // ---------------------------------------------------------------------------
  // The paths visited on the way down

  /** One step down the tree: into the child under a key, or into a list item. */
  datatype Step = Key(key: string) | Index(index: nat)

  function StepPath(path: string, step: Step): string
  {
    match step
    case Key(k) => KeyPath(path, k)
    case Index(i) => IndexPath(path, i)
  }

  /** The path reached from `path` by taking `steps` in turn. */
  function Follow(path: string, steps: seq<Step>): string
    decreases |steps|
  {
    if steps == [] then path else Follow(StepPath(path, steps[0]), steps[1..])
  }

  /** `path` and every path visited from it along `steps` pass the key test (the root may be empty). */
  predicate KeptAlong(noisy: string -> bool, path: string, steps: seq<Step>)
    decreases |steps|
  {
    && (path == "" || !noisy(path))
    && (steps == [] || KeptAlong(noisy, StepPath(path, steps[0]), steps[1..]))
  }

  /** `target` is reached from `root` by steps whose every visited path is kept. */
  ghost predicate ReachedCleanly(noisy: string -> bool, root: string, target: string)
  {
    exists steps :: Follow(root, steps) == target && KeptAlong(noisy, root, steps)
  }

  /** A path reached cleanly from a child is reached cleanly from a kept parent, one step further up. */
  lemma ReachedFromParent(noisy: string -> bool, path: string, step: Step, target: string)
    requires path == "" || !noisy(path)
    requires ReachedCleanly(noisy, StepPath(path, step), target)
    ensures ReachedCleanly(noisy, path, target)
  {
    var steps :| Follow(StepPath(path, step), steps) == target && KeptAlong(noisy, StepPath(path, step), steps);
    var all := [step] + steps;
    assert all[1..] == steps;
    assert Follow(path, all) == target;
    assert KeptAlong(noisy, path, all);
  }

  /** Every pair the walk emits below `path` sits at a path reached cleanly from `path`. */
  lemma {:induction false} WalkReached(py: Builtins, noisy: string -> bool, node: Value, path: string)
    ensures forall pair | pair in Walk(py, noisy, node, path) :: ReachedCleanly(noisy, path, pair.0)
    decreases node, 1
  {
    var r := Walk(py, noisy, node, path);
    if path != "" && noisy(path) {
    } else if node.Obj? {
      WalkFieldsReached(py, noisy, node, node.fields, path);
    } else if node.Arr? {
      WalkItemsReached(py, noisy, node, Capped(node.items), path);
    } else {
      assert r == [] || r == [(path, r[0].1)];
      assert Follow(path, []) == path && KeptAlong(noisy, path, []);
    }
  }

  lemma {:induction false} WalkFieldsReached(py: Builtins, noisy: string -> bool, parent: Value,
                                             fields: seq<(string, Value)>, path: string)
    requires parent.Obj? && fields <= parent.fields
    requires path == "" || !noisy(path)
    ensures forall pair | pair in WalkFields(py, noisy, parent, fields, path) :: ReachedCleanly(noisy, path, pair.0)
    decreases parent, 0, |fields|
  {
    if fields != [] {
      var n := |fields| - 1;
      assert fields[n] in parent.fields;
      var step := Key(fields[n].0);
      WalkFieldsReached(py, noisy, parent, fields[..n], path);
      WalkReached(py, noisy, fields[n].1, StepPath(path, step));
      forall pair | pair in Walk(py, noisy, fields[n].1, StepPath(path, step))
        ensures ReachedCleanly(noisy, path, pair.0)
      {
        ReachedFromParent(noisy, path, step, pair.0);
      }
    }
  }

  lemma {:induction false} WalkItemsReached(py: Builtins, noisy: string -> bool, parent: Value,
                                            items: seq<Value>, path: string)
    requires parent.Arr? && items <= parent.items
    requires path == "" || !noisy(path)
    ensures forall pair | pair in WalkItems(py, noisy, parent, items, path) :: ReachedCleanly(noisy, path, pair.0)
    decreases parent, 0, |items|
  {
    if items != [] {
      var n := |items| - 1;
      assert items[n] in parent.items;
      var step := Index(n);
      WalkItemsReached(py, noisy, parent, items[..n], path);
      WalkReached(py, noisy, items[n], StepPath(path, step));
      forall pair | pair in Walk(py, noisy, items[n], StepPath(path, step))
        ensures ReachedCleanly(noisy, path, pair.0)
      {
        ReachedFromParent(noisy, path, step, pair.0);
      }
    }
  }

  /**
   * Every pair `_flatten` emits below `path` has a path extending `path` that is not a
   * noisy key of the section, and a non-noise stripped text cut down to at most 601
   * characters. Its path is reached from `path` by keys and list indices, and no path
   * visited on the way is a noisy key: a noisy path hides its whole subtree.
   */
  lemma FlattenPairsClean(py: Builtins, rule: KeyRule, node: Value, path: string, section: Option<string>)
    ensures forall pair | pair in FlattenPairs(py, rule, node, path, section) ::
      CleanPair(KeyFilter(rule, section), path, pair)
    ensures forall pair | pair in FlattenPairs(py, rule, node, path, section) ::
      ReachedCleanly(KeyFilter(rule, section), path, pair.0)
  {
    WalkClean(py, KeyFilter(rule, section), node, path);
    WalkReached(py, KeyFilter(rule, section), node, path);
  }

  // ---------------------------------------------------------------------------
  // Leaves by kind

  /** The rendering of an int has no whitespace at either end. */
  lemma IntTextStripped(n: int)
    ensures Stripped(IntToString(n))
  {
    var d := NatToString(if n < 0 then -n else n);
    assert IsDigit(d[0]) && IsDigit(d[|d| - 1]);
  }

  /** A `None` leaf and an int leaf never yield a pair: `""` and a run of digits are noise. */
  lemma {:induction false} NullAndIntLeavesDropped(py: Builtins, noisy: string -> bool, n: int, path: string)
    ensures Walk(py, noisy, Null, path) == []
    ensures Walk(py, noisy, Int(n), path) == []
  {
    IntTextStripped(n);
    StrippedIsFixed(IntToString(n));
    IntTextIsNoise(n);
  }

  /** A string leaf at a kept path yields its stripped text, cut down, exactly when that text is no noise. */
  lemma {:induction false} StringLeafKept(py: Builtins, noisy: string -> bool, t: string, path: string)
    requires path == "" || !noisy(path)
    ensures CleanText(Strip(t)) ==> Walk(py, noisy, Str(t), path) == [(path, TruncateValue(Strip(t)))]
    ensures !CleanText(Strip(t)) ==> Walk(py, noisy, Str(t), path) == []
  {
    var r := KeepText(Strip(t), path);
    assert Walk(py, noisy, Str(t), path) == r;
    if CleanText(Strip(t)) {
      assert |r| == 1;
      assert r == [r[0]];
    }
  }

  // ---------------------------------------------------------------------------
  // The allowlisted sections

  /** A walk whose own path fails the key test yields nothing. */
  lemma NoisyRootEmitsNothing(py: Builtins, noisy: string -> bool, node: Value, path: string)
    requires path != "" && noisy(path)
    ensures Walk(py, noisy, node, path) == []
  {
  }

  /** An object with one field at a kept path yields what that field's value yields below it. */
  lemma SingleFieldWalk(py: Builtins, noisy: string -> bool, k: string, v: Value, path: string)
    requires path == "" || !noisy(path)
    ensures Walk(py, noisy, Obj([(k, v)]), path) == Walk(py, noisy, v, KeyPath(path, k))
  {
    var node := Obj([(k, v)]);
    assert node.fields[..0] == [];
    WalkFieldsStep(py, noisy, node, 0, path);
    assert node.fields[..1] == node.fields;
  }

  /**
   * As written, a section with a non-empty allowlist whose prefixes are all longer than
   * the section's own name yields no pair whatever its content: its root path fails the
   * allowlist, and the walk stops there.
   */
  lemma ShortRootEmitsNothing(py: Builtins, node: Value, section: string)
    requires section != "" && section in AllowSections && AllowSections[section] != {}
    requires forall p | p in AllowSections[section] :: |p| > |section|
    ensures FlattenPairs(py, AsWritten, node, section, Some(section)) == []
  {
    ShortPathRejected(section, AllowSections[section]);
    assert AllowlistRejects(section, Some(section));
    NoisyRootEmitsNothing(py, KeyFilter(AsWritten, Some(section)), node, section);
  }

  /** The allowed prefixes of design_and_layout and legal_and_product_status are longer than the section names. */
  lemma AllowlistedPrefixesAreLonger()
    ensures AllowSections["design_and_layout"] != {}
    ensures forall p | p in AllowSections["design_and_layout"] :: |p| > |"design_and_layout"|
    ensures AllowSections["legal_and_product_status"] != {}
    ensures forall p | p in AllowSections["legal_and_product_status"] :: |p| > |"legal_and_product_status"|
  {
    assert AllowSections["design_and_layout"] == DesignAllow;
    assert "design_and_layout.location" in DesignAllow;
    assert AllowSections["legal_and_product_status"] == LegalAllow;
    assert "legal_and_product_status.status" in LegalAllow;
  }

  /**
   * As written, the sections design_and_layout and legal_and_product_status yield no
   * pair at all: their own root paths fail their allowlists.
   */
  lemma AllowlistedSectionsEmitNothing(py: Builtins, node: Value)
    ensures FlattenPairs(py, AsWritten, node, "design_and_layout", Some("design_and_layout")) == []
    ensures FlattenPairs(py, AsWritten, node, "legal_and_product_status", Some("legal_and_product_status")) == []
  {
    AllowlistedPrefixesAreLonger();
    ShortRootEmitsNothing(py, node, "design_and_layout");
    ShortRootEmitsNothing(py, node, "legal_and_product_status");
  }

  /** Under the intended rule an allowed path of design_and_layout is kept. */
  lemma DesignLocationKeptWhenIntended()
    ensures !IsNoiseKeyIntended("design_and_layout.location", Some("design_and_layout"))
  {
    var p := "design_and_layout.location";
    assert p == "design_and_layout" + "." + "location";
    NoNoiseSuffixOfTwoSegments("design_and_layout", "location");
    assert p !in NoiseKeys;
    assert AllowSections["design_and_layout"] == DesignAllow;
    assert p in DesignAllow && p <= p;
  }

  /** A one-field object holding a clean text at kept paths yields that text, cut down, under the field's path. */
  lemma {:induction false} SingleTextFieldKept(py: Builtins, noisy: string -> bool, k: string, t: string, root: string)
    requires root != "" && !noisy(root) && !noisy(KeyPath(root, k))
    requires CleanText(Strip(t))
    ensures Walk(py, noisy, Obj([(k, Str(t))]), root) == [(KeyPath(root, k), TruncateValue(Strip(t)))]
  {
    SingleFieldWalk(py, noisy, k, Str(t), root);
    StringLeafKept(py, noisy, t, KeyPath(root, k));
  }

  /**
   * Under the intended rule a clean location text of design_and_layout reaches the
   * index under the key-path `design_and_layout.location`.
   */
  lemma DesignLocationIndexedWhenIntended(py: Builtins, t: string)
    requires CleanText(Strip(t))
    ensures FlattenPairs(py, Intended, Obj([("location", Str(t))]), "design_and_layout", Some("design_and_layout"))
         == [("design_and_layout.location", TruncateValue(Strip(t)))]
  {
    var noisy := KeyFilter(Intended, Some("design_and_layout"));
    DesignRootKeptWhenIntended();
    DesignLocationKeptWhenIntended();
    assert KeyPath("design_and_layout", "location") == "design_and_layout.location";
    SingleTextFieldKept(py, noisy, "location", t, "design_and_layout");
  }
}
