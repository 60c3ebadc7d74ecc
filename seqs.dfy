/** Generic facts about sequences used by the list-building loops. */
module Seqs {
  import opened Wrappers

  /** Appending in two steps is appending once. */
  lemma AppendAssoc<T>(a: seq<T>, b: seq<T>, c: seq<T>)
    ensures (a + b) + c == a + (b + c)
  {
  }

  /** The concatenation of a list of lists, in order. */
  function Concat<T>(xss: seq<seq<T>>): seq<T>
  {
    if xss == [] then [] else Concat(xss[..|xss| - 1]) + xss[|xss| - 1]
  }

  /** The values `f` gives for the elements of `xs` that it maps to something, in order. */
  function Collect<T, U>(f: T -> Option<U>, xs: seq<T>): seq<U>
  {
    if xs == [] then []
    else
      var n := |xs| - 1;
      Collect(f, xs[..n]) + if f(xs[n]).Some? then [f(xs[n]).value] else []
  }

  /** One more element adds its value, if any, at the end. */
  lemma CollectStep<T, U>(f: T -> Option<U>, xs: seq<T>, i: int)
    requires 0 <= i < |xs|
    ensures Collect(f, xs[..i + 1]) == Collect(f, xs[..i]) + if f(xs[i]).Some? then [f(xs[i]).value] else []
  {
    assert xs[..i + 1][..i] == xs[..i];
  }

  /** The positions of the elements of `xs` that `f` maps to something, in increasing order. */
  ghost function Sources<T, U>(f: T -> Option<U>, xs: seq<T>): (r: seq<int>)
    ensures forall k | 0 <= k < |r| :: 0 <= r[k] < |xs|
    ensures forall a, b | 0 <= a < b < |r| :: r[a] < r[b]
  {
    if xs == [] then []
    else
      var n := |xs| - 1;
      Sources(f, xs[..n]) + if f(xs[n]).Some? then [n] else []
  }

  /**
   * `Collect` keeps exactly the elements `f` maps to something, each once and in order:
   * its `k`-th value is what `f` gives for the element at the `k`-th source position.
   */
  lemma CollectSources<T, U>(f: T -> Option<U>, xs: seq<T>)
    ensures var ys := Collect(f, xs); var src := Sources(f, xs);
      && |src| == |ys|
      && (forall k | 0 <= k < |ys| :: f(xs[src[k]]) == Some(ys[k]))
      && (forall j | 0 <= j < |xs| :: f(xs[j]).Some? ==> j in src)
  {
    SourcesLength(f, xs);
    SourcesValues(f, xs);
    SourcesComplete(f, xs);
  }

  /** There are as many source positions as collected values. */
  lemma {:induction false} SourcesLength<T, U>(f: T -> Option<U>, xs: seq<T>)
    ensures |Sources(f, xs)| == |Collect(f, xs)|
  {
    if xs != [] {
      SourcesLength(f, xs[..|xs| - 1]);
    }
  }

  /** The `k`-th collected value is what `f` gives at the `k`-th source position. */
  lemma {:induction false} SourcesValues<T, U>(f: T -> Option<U>, xs: seq<T>)
    requires |Sources(f, xs)| == |Collect(f, xs)|
    ensures forall k | 0 <= k < |Collect(f, xs)| :: f(xs[Sources(f, xs)[k]]) == Some(Collect(f, xs)[k])
  {
    if xs != [] {
      var n := |xs| - 1;
      var init := xs[..n];
      SourcesLength(f, init);
      SourcesValues(f, init);
      var ys0, src0 := Collect(f, init), Sources(f, init);
      forall k | 0 <= k < |ys0|
        ensures f(xs[Sources(f, xs)[k]]) == Some(Collect(f, xs)[k])
      {
        assert Sources(f, xs)[k] == src0[k] && Collect(f, xs)[k] == ys0[k];
        assert init[src0[k]] == xs[src0[k]];
      }
    }
  }

  /** Every position `f` maps to something is a source position. */
  lemma {:induction false} SourcesComplete<T, U>(f: T -> Option<U>, xs: seq<T>)
    ensures forall j | 0 <= j < |xs| :: f(xs[j]).Some? ==> j in Sources(f, xs)
  {
    if xs != [] {
      var n := |xs| - 1;
      var init := xs[..n];
      SourcesComplete(f, init);
      forall j | 0 <= j < n && f(xs[j]).Some?
        ensures j in Sources(f, xs)
      {
        assert init[j] == xs[j];
        assert j in Sources(f, init);
      }
    }
  }

  /**
   * How many results a search loop keeps for `top_k`: it stops once it holds `top_k`
   * results, and checks only after appending one, so it never stops before the first.
   */
  function Cap(topK: int): nat
  {
    if topK >= 1 then topK else 1
  }

  /** The first `n` elements of `s`, or all of them when it has fewer. */
  function Take<T>(s: seq<T>, n: nat): (r: seq<T>)
    ensures |r| <= n && |r| <= |s|
    ensures r == s[..|r|]
    ensures |r| < n ==> r == s
  {
    if |s| <= n then s else s[..n]
  }

  /** What `Collect` gives for a prefix of `xs` is a prefix of what it gives for `xs`. */
  lemma {:induction false} CollectPrefix<T, U>(f: T -> Option<U>, xs: seq<T>, i: int)
    requires 0 <= i <= |xs|
    ensures |Collect(f, xs[..i])| <= |Collect(f, xs)|
    ensures Collect(f, xs[..i]) == Collect(f, xs)[..|Collect(f, xs[..i])|]
  {
    if i < |xs| {
      var init := xs[..|xs| - 1];
      assert init[..i] == xs[..i];
      CollectPrefix(f, init, i);
    } else {
      assert xs[..i] == xs;
    }
  }

  /**
   * A loop that collects values and stops as soon as it holds `cap` of them returns the
   * first `cap` values of the whole collection.
   */
  lemma CappedCollect<T, U>(f: T -> Option<U>, xs: seq<T>, i: int, cap: nat)
    requires 0 <= i <= |xs| && |Collect(f, xs[..i])| == cap
    ensures Take(Collect(f, xs), cap) == Collect(f, xs[..i])
  {
    CollectPrefix(f, xs, i);
  }

  /**
   * The first `cap` collected values come from elements that `f` maps to them, in the
   * order of `xs`; fewer than `cap` values means every element `f` maps to something
   * contributed.
   */
  lemma TakeCollectSources<T, U>(f: T -> Option<U>, xs: seq<T>, cap: nat)
    ensures var r := Take(Collect(f, xs), cap); var src := Sources(f, xs);
      && |r| <= |src|
      && (forall k | 0 <= k < |r| :: f(xs[src[k]]) == Some(r[k]))
      && (|r| < cap ==> forall j | 0 <= j < |xs| :: f(xs[j]).Some? ==> j in src)
  {
    CollectSources(f, xs);
  }

  /** The values `f` gives for every element of `xs`, in order; None as soon as one gives none. */
  function AllSome<T, U>(f: T -> Option<U>, xs: seq<T>): Option<seq<U>>
  {
    if xs == [] then Some([])
    else
      var n := |xs| - 1;
      var init := AllSome(f, xs[..n]);
      if init.Some? && f(xs[n]).Some? then Some(init.value + [f(xs[n]).value]) else None
  }

  /** One more element extends the values, or fails them. */
  lemma AllSomeStep<T, U>(f: T -> Option<U>, xs: seq<T>, i: int)
    requires 0 <= i < |xs|
    ensures AllSome(f, xs[..i + 1]) ==
      if AllSome(f, xs[..i]).Some? && f(xs[i]).Some? then Some(AllSome(f, xs[..i]).value + [f(xs[i]).value]) else None
  {
    assert xs[..i + 1][..i] == xs[..i];
  }

  /** Once a prefix fails, the whole fails. */
  lemma {:induction false} AllSomeNoneStays<T, U>(f: T -> Option<U>, xs: seq<T>, i: int)
    requires 0 <= i <= |xs| && AllSome(f, xs[..i]).None?
    ensures AllSome(f, xs).None?
    decreases |xs| - i
  {
    if i < |xs| {
      AllSomeStep(f, xs, i);
      AllSomeNoneStays(f, xs, i + 1);
    } else {
      assert xs[..i] == xs;
    }
  }

  /** `AllSome` succeeds exactly when every element gives a value, and then lists those values in order. */
  lemma {:induction false} AllSomeValues<T, U>(f: T -> Option<U>, xs: seq<T>)
    ensures AllSome(f, xs).Some? <==> forall i | 0 <= i < |xs| :: f(xs[i]).Some?
    ensures AllSome(f, xs).Some? ==>
      |AllSome(f, xs).value| == |xs| && forall i | 0 <= i < |xs| :: f(xs[i]) == Some(AllSome(f, xs).value[i])
  {
    if xs != [] {
      var n := |xs| - 1;
      var init := xs[..n];
      AllSomeValues(f, init);
      assert forall i | 0 <= i < n :: init[i] == xs[i];
    }
  }
}
