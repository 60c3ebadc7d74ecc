/**
 * The Python string operations the pipeline uses: `strip`, `lower`, `replace` of one
 * character, `"sep".join`, `in` / `find` on strings, and cutting a string down with an
 * ellipsis marker.
 */
module Text {

  /** The characters Python's `str.isspace()` accepts, which `strip()` and `\s` remove or match. */
  predicate IsSpace(c: char)
  {
    || '\U{0009}' <= c <= '\U{000D}'
    || '\U{001C}' <= c <= '\U{0020}'
    || c == '\U{0085}' || c == '\U{00A0}' || c == '\U{1680}'
    || '\U{2000}' <= c <= '\U{200A}'
    || c == '\U{2028}' || c == '\U{2029}' || c == '\U{202F}' || c == '\U{205F}' || c == '\U{3000}'
  }

  /** Every character of `s` is whitespace. */
  predicate AllSpace(s: string)
  {
    forall k | 0 <= k < |s| :: IsSpace(s[k])
  }

  /** `s.lstrip()`: a suffix of `s` that starts with no whitespace. */
  function TrimStart(s: string): (r: string)
    ensures |r| <= |s|
    ensures r == [] || !IsSpace(r[0])
  {
    if s != [] && IsSpace(s[0]) then TrimStart(s[1..]) else s
  }

  /** What `lstrip` keeps is a suffix of `s`. */
  lemma {:induction false} TrimStartIsSuffix(s: string)
    ensures TrimStart(s) == s[|s| - |TrimStart(s)|..]
  {
    if s != [] && IsSpace(s[0]) {
      TrimStartIsSuffix(s[1..]);
    }
  }

  /** What `lstrip` drops is whitespace. */
  lemma {:induction false} TrimStartDropsSpaces(s: string)
    ensures AllSpace(s[..|s| - |TrimStart(s)|])
  {
    if s != [] && IsSpace(s[0]) {
      TrimStartDropsSpaces(s[1..]);
      TrimStartIsSuffix(s[1..]);
      var n := |s| - |TrimStart(s)|;
      assert s[..n] == [s[0]] + s[1..][..n - 1];
    }
  }

  /** `s.rstrip()`: a prefix of `s` that ends with no whitespace. */
  function TrimEnd(s: string): (r: string)
    ensures |r| <= |s| && r == s[..|r|]
    ensures r == [] || !IsSpace(r[|r| - 1])
  {
    if s != [] && IsSpace(s[|s| - 1]) then TrimEnd(s[..|s| - 1]) else s
  }

  /** What `rstrip` drops is whitespace. */
  lemma {:induction false} TrimEndDropsSpaces(s: string)
    ensures AllSpace(s[|TrimEnd(s)|..])
  {
    if s != [] && IsSpace(s[|s| - 1]) {
      var t := s[..|s| - 1];
      TrimEndDropsSpaces(t);
      var n := |TrimEnd(s)|;
      assert s[n..] == t[n..] + [s[|s| - 1]];
    }
  }

  /** `s` holds `part` starting at index `i`. */
  predicate OccursAt(s: string, part: string, i: int)
  {
    0 <= i && i + |part| <= |s| && s[i..i + |part|] == part
  }

  /** Neither end of `s` is whitespace. */
  predicate Stripped(s: string)
  {
    s == [] || (!IsSpace(s[0]) && !IsSpace(s[|s| - 1]))
  }

  /** `s.strip()`: whitespace dropped at both ends. */
  function Strip(s: string): (r: string)
    ensures |r| <= |s|
    ensures Stripped(r)
  {
    TrimEnd(TrimStart(s))
  }

  /** `s.strip()` is the slice of `s` left once the whitespace at either end is cut off. */
  lemma StripIsTrimmedSlice(s: string)
    ensures exists i :: OccursAt(s, Strip(s), i) && AllSpace(s[..i]) && AllSpace(s[i + |Strip(s)|..])
  {
    var t := TrimStart(s);
    var r := TrimEnd(t);
    var i := |s| - |t|;
    TrimStartIsSuffix(s);
    TrimStartDropsSpaces(s);
    TrimEndDropsSpaces(t);
    assert s[i..i + |r|] == r;
    assert s[i + |r|..] == t[|r|..];
    assert OccursAt(s, r, i) && AllSpace(s[..i]) && AllSpace(s[i + |r|..]);
  }

  /** Stripping twice changes nothing more. */
  lemma StripIdempotent(s: string)
    ensures Strip(Strip(s)) == Strip(s)
  {
    StrippedIsFixed(Strip(s));
  }

  /** Stripping a text with no whitespace at either end leaves it as it is. */
  lemma StrippedIsFixed(s: string)
    requires Stripped(s)
    ensures Strip(s) == s
  {
    if s != [] {
      assert TrimStart(s) == s;
      assert TrimEnd(s) == s;
    }
  }

  /**
   * A Latin capital whose small letter is the next code point: the even (or, in a few
   * runs, odd) members of Latin Extended-A, of the regular runs of Latin Extended-B
   * (Vietnamese Ơ and Ư among them) and of Latin Extended Additional.
   */
  predicate PairedCapital(c: char)
  {
    var n := c as int;
    || (0x0100 <= n <= 0x012F && n % 2 == 0)
    || (0x0132 <= n <= 0x0137 && n % 2 == 0)
    || (0x0139 <= n <= 0x0148 && n % 2 == 1)
    || (0x014A <= n <= 0x0177 && n % 2 == 0)
    || (0x0179 <= n <= 0x017E && n % 2 == 1)
    || n == 0x01A0 || n == 0x01A2 || n == 0x01A4 || n == 0x01AF
    || (0x01CD <= n <= 0x01DC && n % 2 == 1)
    || (0x01DE <= n <= 0x01EF && n % 2 == 0)
    || (0x01F8 <= n <= 0x021F && n % 2 == 0)
    || (0x0222 <= n <= 0x0233 && n % 2 == 0)
    || (0x1E00 <= n <= 0x1E95 && n % 2 == 0)
    || (0x1EA0 <= n <= 0x1EFF && n % 2 == 0)
  }

  /** `c.lower()` for the ASCII and Latin capitals that fold to a single character. */
  function LowerChar(c: char): char
  {
    if 'A' <= c <= 'Z' || ('\U{00C0}' <= c <= '\U{00DE}' && c != '\U{00D7}') then (c as int + 32) as char
    else if c == '\U{0178}' then '\U{00FF}'
    else if c == '\U{1E9E}' then '\U{00DF}'
    else if PairedCapital(c) then (c as int + 1) as char
    else c
  }

  /** Folding a folded character changes nothing. */
  lemma LowerCharIdempotent(c: char)
    ensures LowerChar(LowerChar(c)) == LowerChar(c)
  {
  }

  /** `s.lower()`, character by character, for the capitals `LowerChar` folds. */
  function Lower(s: string): (r: string)
    ensures |r| == |s|
    ensures forall i :: 0 <= i < |s| ==> r[i] == LowerChar(s[i])
  {
    seq(|s|, i requires 0 <= i < |s| => LowerChar(s[i]))
  }

  /** `s.replace(c, "")`: every other character kept, in order. */
  function RemoveAll(s: string, c: char): (r: string)
    ensures c !in r
    ensures |r| <= |s|
    ensures forall x :: x != c ==> multiset(r)[x] == multiset(s)[x]
  {
    if s == [] then []
    else
      assert s == [s[0]] + s[1..];
      if s[0] == c then RemoveAll(s[1..], c) else [s[0]] + RemoveAll(s[1..], c)
  }

  /** Removing a character from a concatenation removes it from each part. */
  lemma {:induction false} RemoveAllAppend(a: string, b: string, c: char)
    ensures RemoveAll(a + b, c) == RemoveAll(a, c) + RemoveAll(b, c)
  {
    if a != [] {
      assert (a + b)[1..] == a[1..] + b;
      RemoveAllAppend(a[1..], b, c);
    } else {
      assert a + b == b;
    }
  }

  /** `sep.join(parts)`. */
  function Join(sep: string, parts: seq<string>): string
  {
    if |parts| == 0 then ""
    else if |parts| == 1 then parts[0]
    else Join(sep, parts[..|parts| - 1]) + sep + parts[|parts| - 1]
  }

  /** Joining a list that starts with `a` is `a`, the separator, and the join of the rest. */
  lemma {:induction false} JoinCons(sep: string, a: string, parts: seq<string>)
    requires parts != []
    ensures Join(sep, [a] + parts) == a + sep + Join(sep, parts)
    decreases |parts|
  {
    var all := [a] + parts;
    if |parts| == 1 {
      assert all[..1] == [a];
    } else {
      var init := parts[..|parts| - 1];
      assert all[..|all| - 1] == [a] + init;
      JoinCons(sep, a, init);
    }
  }

  /** `s.split(sep)` for a one-character separator: the pieces between the separators, empty ones included. */
  function Split(s: string, sep: char): (r: seq<string>)
    ensures |r| >= 1
    ensures forall i | 0 <= i < |r| :: sep !in r[i]
  {
    if s == [] then [""]
    else
      var rest := Split(s[1..], sep);
      if s[0] == sep then [""] + rest else [[s[0]] + rest[0]] + rest[1..]
  }

  /** Gluing a character onto the first piece glues it onto the join. */
  lemma JoinGlue(sep: string, c: char, parts: seq<string>)
    requires parts != []
    ensures Join(sep, [[c] + parts[0]] + parts[1..]) == [c] + Join(sep, parts)
  {
    if |parts| == 1 {
      assert [[c] + parts[0]] + parts[1..] == [[c] + parts[0]];
    } else {
      var tail := Join(sep, parts[1..]);
      JoinCons(sep, [c] + parts[0], parts[1..]);
      assert [parts[0]] + parts[1..] == parts;
      JoinCons(sep, parts[0], parts[1..]);
      assert ([c] + parts[0]) + sep + tail == [c] + (parts[0] + sep + tail);
    }
  }

  /** Joining the pieces of a split with the separator gives back the text. */
  lemma {:induction false} JoinSplit(s: string, sep: char)
    ensures Join([sep], Split(s, sep)) == s
  {
    if s != [] {
      var rest := Split(s[1..], sep);
      JoinSplit(s[1..], sep);
      if s[0] == sep {
        JoinCons([sep], "", rest);
        assert s == [sep] + s[1..];
      } else {
        JoinGlue([sep], s[0], rest);
        assert s == [s[0]] + s[1..];
      }
    }
  }

  /** A text without the separator is split into itself alone. */
  lemma {:induction false} SplitAbsent(s: string, sep: char)
    requires sep !in s
    ensures Split(s, sep) == [s]
  {
    if s != [] {
      SplitAbsent(s[1..], sep);
      assert s == [s[0]] + s[1..];
    }
  }

  /** Splitting at the first separator gives the text before it, then the pieces of the rest. */
  lemma {:induction false} SplitFirst(a: string, sep: char, rest: string)
    requires sep !in a
    ensures Split(a + [sep] + rest, sep) == [a] + Split(rest, sep)
  {
    if a != [] {
      assert (a + [sep] + rest)[1..] == a[1..] + [sep] + rest;
      SplitFirst(a[1..], sep, rest);
      assert [a[0]] + a[1..] == a;
    } else {
      assert a + [sep] + rest == [sep] + rest;
      assert ([sep] + rest)[1..] == rest;
    }
  }

  /** Splitting the join of dot-free pieces gives the pieces back. */
  lemma {:induction false} SplitJoin(parts: seq<string>, sep: char)
    requires parts != [] && forall i | 0 <= i < |parts| :: sep !in parts[i]
    ensures Split(Join([sep], parts), sep) == parts
    decreases |parts|
  {
    if |parts| == 1 {
      SplitAbsent(parts[0], sep);
    } else {
      assert [parts[0]] + parts[1..] == parts;
      JoinCons([sep], parts[0], parts[1..]);
      SplitFirst(parts[0], sep, Join([sep], parts[1..]));
      SplitJoin(parts[1..], sep);
    }
  }

  /** `needle in hay`, equivalently `hay.find(needle) >= 0`. */
  predicate Contains(hay: string, needle: string)
  {
    exists i | 0 <= i <= |hay| :: OccursAt(hay, needle, i)
  }

  /** The ellipsis marker `…` appended to cut-down text. */
  const Ellipsis: char := '\U{2026}'

  /** `s` when it has at most `n` characters, otherwise its first `n` characters followed by `…`. */
  function Ellipsize(s: string, n: nat): (r: string)
    ensures |r| <= n + 1
    ensures |s| <= n ==> r == s
    ensures |s| > n ==> |r| == n + 1 && r[..n] == s[..n] && r[n] == Ellipsis
  {
    if |s| > n then s[..n] + [Ellipsis] else s
  }

  /** Cutting down an already cut-down text changes nothing. */
  lemma EllipsizeIdempotent(s: string, n: nat)
    ensures Ellipsize(Ellipsize(s, n), n) == Ellipsize(s, n)
  {
    var r := Ellipsize(s, n);
    if |s| > n {
      assert r[..n] + [Ellipsis] == r;
    }
  }
}
