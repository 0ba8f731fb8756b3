/**
 The few methods of Python's `str` that the application relies on: `strip`,
 `count`, `split` (with and without a limit) and, as the inverse of `split`,
 `join`. Strings are sequences of Unicode characters.
 */
module Strings {

  /** The characters for which Python's `str.isspace()` holds; `str.strip()`
      called without an argument removes exactly these from both ends. */
  const PyWhitespace: set<char> := {
    '\t', '\n', '\U{0B}', '\U{0C}', '\r', '\U{1C}', '\U{1D}', '\U{1E}', '\U{1F}', ' ',
    '\U{85}', '\U{A0}', '\U{1680}',
    '\U{2000}', '\U{2001}', '\U{2002}', '\U{2003}', '\U{2004}', '\U{2005}',
    '\U{2006}', '\U{2007}', '\U{2008}', '\U{2009}', '\U{200A}',
    '\U{2028}', '\U{2029}', '\U{202F}', '\U{205F}', '\U{3000}'
  }

  /** Number of occurrences of `c` in `s` (Python's `s.count(c)` for a one-character `c`). */
  function Count(s: string, c: char): (n: nat)
    ensures n <= |s|
    ensures n == 0 <==> c !in s
  {
    if s == [] then 0
    else
      assert s == [s[0]] + s[1..];
      (if s[0] == c then 1 else 0) + Count(s[1..], c)
  }

  lemma {:induction false} CountConcat(a: string, b: string, c: char)
    ensures Count(a + b, c) == Count(a, c) + Count(b, c)
  {
    if a == [] {
      assert a + b == b;
    } else {
      assert (a + b)[1..] == a[1..] + b;
      CountConcat(a[1..], b, c);
    }
  }

  /** Index of the first `c` in `s`, or `|s|` when there is none (Python's `s.find(c)`,
      with `|s|` in place of -1). */
  function IndexOf(s: string, c: char): (i: nat)
    ensures i <= |s|
    ensures i < |s| ==> s[i] == c
    ensures forall k :: 0 <= k < i ==> s[k] != c
  {
    if s == [] || s[0] == c then 0 else 1 + IndexOf(s[1..], c)
  }

  /** The first `c` of `a + [c] + b` is the one between them, when `a` has none. */
  lemma IndexOfFirst(a: string, b: string, c: char)
    requires c !in a
    ensures IndexOf(a + [c] + b, c) == |a|
  {
    var s := a + [c] + b;
    var i := IndexOf(s, c);
    assert s[|a|] == c;
  }

  /** Cutting a string at its first `c` can be done in one way only. */
  lemma FirstSplitUnique(a: string, b: string, a': string, b': string, c: char)
    requires c !in a && c !in a'
    requires a + [c] + b == a' + [c] + b'
    ensures a == a' && b == b'
  {
    IndexOfFirst(a, b, c);
    IndexOfFirst(a', b', c);
    var s := a + [c] + b;
    assert a == s[..|a|] && a' == s[..|a'|];
    assert b == s[|a| + 1..] && b' == s[|a'| + 1..];
  }

  /** Python's `s.split(c, 1)`: the whole of `s` when `c` does not occur in it,
      otherwise the parts before and after its first `c`. */
  function SplitFirst(s: string, c: char): (parts: seq<string>)
    ensures c !in s ==> parts == [s]
    ensures c in s ==> |parts| == 2 && parts[0] + [c] + parts[1] == s && c !in parts[0]
  {
    var i := IndexOf(s, c);
    if i == |s| then [s]
    else
      assert s == s[..i] + [c] + s[i + 1..];
      [s[..i], s[i + 1..]]
  }

  /** Python's `c.join(parts)`. */
  function Join(parts: seq<string>, c: char): string
  {
    if |parts| == 0 then ""
    else if |parts| == 1 then parts[0]
    else parts[0] + [c] + Join(parts[1..], c)
  }

  /** Python's `s.split(c)` for a one-character separator: the fields of `s`
      between consecutive occurrences of `c` (an empty `s` gives `[""]`). */
  function Split(s: string, c: char): (parts: seq<string>)
    ensures |parts| == Count(s, c) + 1
    ensures forall k :: 0 <= k < |parts| ==> c !in parts[k]
    ensures Join(parts, c) == s
    decreases |s|
  {
    var i := IndexOf(s, c);
    if i == |s| then [s]
    else
      var rest := Split(s[i + 1..], c);
      assert s == s[..i] + [c] + s[i + 1..];
      CountConcat(s[..i] + [c], s[i + 1..], c);
      CountConcat(s[..i], [c], c);
      assert Count([c], c) == 1;
      assert ([s[..i]] + rest)[1..] == rest;
      [s[..i]] + rest
  }

  /** Splitting at a first separator that follows a separator-free prefix. */
  lemma SplitAfterFirst(a: string, b: string, c: char)
    requires c !in a
    ensures Split(a + [c] + b, c) == [a] + Split(b, c)
  {
    var s := a + [c] + b;
    IndexOfFirst(a, b, c);
    assert s[..|a|] == a;
    assert s[|a| + 1..] == b;
  }

  /** `Split` undoes `Join`: a non-empty list of fields free of the separator is
      recovered from its joined form, so `Split` is the only such decomposition. */
  lemma {:induction false} SplitJoin(parts: seq<string>, c: char)
    requires |parts| > 0
    requires forall k :: 0 <= k < |parts| ==> c !in parts[k]
    ensures Split(Join(parts, c), c) == parts
  {
    if |parts| == 1 {
      assert Join(parts, c) == parts[0];
    } else {
      var rest := parts[1..];
      SplitJoin(rest, c);
      assert Join(parts, c) == parts[0] + [c] + Join(rest, c);
      SplitAfterFirst(parts[0], Join(rest, c), c);
      assert parts == [parts[0]] + rest;
    }
  }

  /** Python's `s.lstrip(chars)` for the set of characters `cs`. */
  function StripLeft(s: string, cs: set<char>): (r: string)
    ensures |r| <= |s| && r == s[|s| - |r|..]
    ensures r != [] ==> r[0] !in cs
    ensures forall k :: 0 <= k < |s| - |r| ==> s[k] in cs
  {
    if s != [] && s[0] in cs then StripLeft(s[1..], cs) else s
  }

  /** Python's `s.rstrip(chars)` for the set of characters `cs`. */
  function StripRight(s: string, cs: set<char>): (r: string)
    ensures |r| <= |s| && r == s[..|r|]
    ensures r != [] ==> r[|r| - 1] !in cs
    ensures forall k :: |r| <= k < |s| ==> s[k] in cs
  {
    if s != [] && s[|s| - 1] in cs then StripRight(s[..|s| - 1], cs) else s
  }

  /** `r` is `s` with a run of characters from `cs` cut from each end, the first
      of them at offset `i`, and `r` neither starts nor ends with one of `cs`. */
  ghost predicate IsTrimOf(r: string, s: string, cs: set<char>, i: nat)
  {
    && i + |r| <= |s|
    && r == s[i..i + |r|]
    && (forall k :: 0 <= k < i ==> s[k] in cs)
    && (forall k :: i + |r| <= k < |s| ==> s[k] in cs)
    && (r != [] ==> r[0] !in cs && r[|r| - 1] !in cs)
  }

  /** Python's `s.strip(chars)` for the set of characters `cs`. */
  function Strip(s: string, cs: set<char>): (r: string)
    ensures |r| <= |s|
    ensures r != [] ==> r[0] !in cs && r[|r| - 1] !in cs
    ensures forall ch :: ch in r ==> ch in s
  {
    var left := StripLeft(s, cs);
    var r := StripRight(left, cs);
    assert r == left[..|r|];
    r
  }

  /** `Strip` cuts a run of characters from `cs` off each end of `s` and keeps the
      rest as it is. */
  lemma StripIsTrim(s: string, cs: set<char>)
    ensures IsTrimOf(Strip(s, cs), s, cs, |s| - |StripLeft(s, cs)|)
  {
    var left := StripLeft(s, cs);
    assert Strip(s, cs) == StripRight(left, cs);
    TrimOfTrims(s, left, StripRight(left, cs), cs);
  }

  /** Cutting a run from `cs` off the front and then off the back is a trim. */
  lemma TrimOfTrims(s: string, left: string, r: string, cs: set<char>)
    requires |left| <= |s| && left == s[|s| - |left|..]
    requires forall k :: 0 <= k < |s| - |left| ==> s[k] in cs
    requires |r| <= |left| && r == left[..|r|]
    requires forall k :: |r| <= k < |left| ==> left[k] in cs
    requires r != [] ==> r[0] !in cs && r[|r| - 1] !in cs
    ensures IsTrimOf(r, s, cs, |s| - |left|)
  {
    var i := |s| - |left|;
    assert r == s[i..i + |r|];
    forall k | i + |r| <= k < |s|
      ensures s[k] in cs
    {
      assert s[k] == left[k - i];
    }
  }

  /** There is only one way to trim `s`: any trim of `s` is `Strip(s, cs)`. */
  lemma StripUnique(t: string, s: string, cs: set<char>, j: nat)
    requires IsTrimOf(t, s, cs, j)
    ensures t == Strip(s, cs)
  {
    var r := Strip(s, cs);
    var i := |s| - |StripLeft(s, cs)|;
    StripIsTrim(s, cs);
    if t != [] && r != [] {
      assert s[i] == r[0] && s[j] == t[0];
      assert i == j;
      assert s[i + |r| - 1] == r[|r| - 1] && s[j + |t| - 1] == t[|t| - 1];
      assert |r| == |t|;
      assert t == s[i..i + |r|];
    }
  }

  /** Stripping twice removes nothing more. */
  lemma StripIdempotent(s: string, cs: set<char>)
    ensures Strip(Strip(s, cs), cs) == Strip(s, cs)
  {
    var r := Strip(s, cs);
    assert IsTrimOf(r, r, cs, 0) by {
      assert r == r[0..|r|];
    }
    StripUnique(r, r, cs, 0);
  }
}
