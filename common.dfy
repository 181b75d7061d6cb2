/** Value types and string helpers shared by every module of the model: an
    Option, Python's negative slice `s[-k:]`, and the few `str` methods the
    daemon uses (strip, find, rfind, `in`, startswith, lower). */
module Common {

  datatype Option<T> = None | Some(value: T) {
    /** Python's `x if x is not None else default`. */
    function GetOr(default: T): T {
      if Some? then value else default
    }
  }

  function Min(a: int, b: int): int {
    if a <= b then a else b
  }

  /** Python's `s[-k:]`. For k > 0 it is the last min(k, |s|) elements; for
      k == 0 it is the WHOLE sequence (because -0 == 0); for k < 0 it drops the
      first -k elements. */
  function PyTail<T>(s: seq<T>, k: int): (r: seq<T>)
    ensures k > 0 ==> |r| == Min(k, |s|) && r == s[|s| - |r|..]
    ensures k == 0 ==> r == s
    ensures k < 0 ==> r == s[Min(-k, |s|)..]
  {
    if k > 0 then
      if k >= |s| then s else s[|s| - k..]
    else if -k >= |s| then []
    else s[-k..]
  }

  /** Appending one element and keeping the last `n` (n > 0): the bound holds
      afterwards, the new element is last, and what is kept is the most recent
      part of the old sequence. */
  lemma {:induction false} AppendKeepLast<T>(s: seq<T>, x: T, n: int)
    requires n > 0
    ensures var r := PyTail(s + [x], n);
      && |r| == Min(|s| + 1, n)
      && r[|r| - 1] == x
      && r[..|r| - 1] == s[|s| - (|r| - 1)..]
  {
    var r := PyTail(s + [x], n);
    assert r == (s + [x])[|s| + 1 - |r|..];
    assert r[..|r| - 1] == (s + [x])[|s| + 1 - |r|..|s|];
  }

  // ---------------------------------------------------------------------------
  // Characters and strings

  /** The characters for which Python's `str.isspace()` holds. */
  const Whitespace: set<char> := {
    '\t', '\n', '\U{0B}', '\U{0C}', '\r', '\U{1C}', '\U{1D}', '\U{1E}', '\U{1F}', ' ',
    '\U{85}', '\U{A0}', '\U{1680}', '\U{2000}', '\U{2001}', '\U{2002}', '\U{2003}',
    '\U{2004}', '\U{2005}', '\U{2006}', '\U{2007}', '\U{2008}', '\U{2009}', '\U{200A}',
    '\U{2028}', '\U{2029}', '\U{202F}', '\U{205F}', '\U{3000}'
  }

  /** Python's `s.lstrip(chars)`. */
  function LStrip(s: string, cs: set<char>): (r: string)
    ensures |r| <= |s| && r == s[|s| - |r|..]
    ensures r == [] || r[0] !in cs
    ensures forall i :: 0 <= i < |s| - |r| ==> s[i] in cs
    decreases |s|
  {
    if |s| > 0 && s[0] in cs then LStrip(s[1..], cs) else s
  }

  /** Python's `s.rstrip(chars)`. */
  function RStrip(s: string, cs: set<char>): (r: string)
    ensures |r| <= |s| && r == s[..|r|]
    ensures r == [] || r[|r| - 1] !in cs
    ensures forall i :: |r| <= i < |s| ==> s[i] in cs
    decreases |s|
  {
    if |s| > 0 && s[|s| - 1] in cs then RStrip(s[..|s| - 1], cs) else s
  }

  /** Python's `s.strip(chars)`: no stripped character is left at either
      end. */
  function StripChars(s: string, cs: set<char>): (r: string)
    ensures |r| <= |s|
    ensures r == [] || (r[0] !in cs && r[|r| - 1] !in cs)
  {
    var m := RStrip(s, cs);
    var r := LStrip(m, cs);
    assert r != [] ==> r[|r| - 1] == m[|m| - 1];
    r
  }

  /** What `strip` cuts off are stripped characters only: the result is an
      infix of `s` starting after `lo` of them, and only stripped characters
      follow it. */
  lemma StripCharsIsInfix(s: string, cs: set<char>)
    ensures var r := StripChars(s, cs);
      var lo := |RStrip(s, cs)| - |r|;
      && 0 <= lo && r == s[lo..lo + |r|]
      && (forall i :: 0 <= i < lo ==> s[i] in cs)
      && (forall i :: lo + |r| <= i < |s| ==> s[i] in cs)
  {
    var m := RStrip(s, cs);
    var r := LStrip(m, cs);
    var lo := |m| - |r|;
    assert r == m[lo..];
    assert m == s[..|m|];
    assert forall i :: 0 <= i < lo ==> s[i] == m[i];
  }

  /** Stripping a prefix made only of stripped characters, in front of a
      text that does not start with one, leaves exactly that text. */
  lemma LStripDropsPrefix(p: string, y: string, cs: set<char>)
    requires forall i :: 0 <= i < |p| ==> p[i] in cs
    requires y == [] || y[0] !in cs
    ensures LStrip(p + y, cs) == y
  {
    var s := p + y;
    var r := LStrip(s, cs);
    if y != [] {
      assert s[|p|] == y[0];
    }
    if r != [] {
      assert r[0] == s[|s| - |r|];
    }
  }

  /** The mirror image for `rstrip`. */
  lemma RStripDropsSuffix(y: string, q: string, cs: set<char>)
    requires forall i :: 0 <= i < |q| ==> q[i] in cs
    requires y == [] || y[|y| - 1] !in cs
    ensures RStrip(y + q, cs) == y
  {
    var s := y + q;
    var r := RStrip(s, cs);
    if y != [] {
      assert s[|y| - 1] == y[|y| - 1];
    }
    if r != [] {
      assert r[|r| - 1] == s[|r| - 1];
    }
  }

  /** Stripping a text whose ends are not stripped characters, between a
      prefix and a suffix made only of stripped characters, leaves exactly
      that text. */
  lemma StripCharsBetween(p: string, y: string, q: string, cs: set<char>)
    requires forall i :: 0 <= i < |p| ==> p[i] in cs
    requires forall i :: 0 <= i < |q| ==> q[i] in cs
    requires y != [] && y[0] !in cs && y[|y| - 1] !in cs
    ensures StripChars(p + y + q, cs) == y
  {
    assert (p + y)[|p + y| - 1] == y[|y| - 1];
    RStripDropsSuffix(p + y, q, cs);
    LStripDropsPrefix(p, y, cs);
  }

  /** Python's `s.strip()`. */
  function Strip(s: string): (r: string)
  {
    StripChars(s, Whitespace)
  }

  predicate StartsWith(s: string, p: string) {
    |p| <= |s| && s[..|p|] == p
  }

  predicate EndsWith(s: string, p: string) {
    |p| <= |s| && s[|s| - |p|..] == p
  }

  /** `sub` occurs in `s` at index i. */
  predicate OccursAt(s: string, sub: string, i: int) {
    0 <= i && i + |sub| <= |s| && s[i..i + |sub|] == sub
  }

  /** Python's `s.find(sub, start)`: the first index at or after `start` where
      `sub` occurs, or -1. */
  function FindFrom(s: string, sub: string, start: nat): (r: int)
    ensures r == -1 || (start <= r && OccursAt(s, sub, r))
    ensures r == -1 ==> forall i :: start <= i ==> !OccursAt(s, sub, i)
    ensures r >= 0 ==> forall i :: start <= i < r ==> !OccursAt(s, sub, i)
    decreases |s| - start
  {
    if start + |sub| > |s| then -1
    else if OccursAt(s, sub, start) then start
    else FindFrom(s, sub, start + 1)
  }

  /** Python's `s.find(sub)`. */
  function Find(s: string, sub: string): int {
    FindFrom(s, sub, 0)
  }

  /** Python's `sub in s`. */
  predicate Contains(s: string, sub: string) {
    Find(s, sub) >= 0
  }

  /** Python's `s.find(c)` for a single character. */
  function FindChar(s: string, c: char): (r: int)
    ensures -1 <= r < |s|
    ensures r == -1 <==> c !in s
    ensures r >= 0 ==> s[r] == c && forall j :: 0 <= j < r ==> s[j] != c
    decreases |s|
  {
    if |s| == 0 then -1
    else if s[0] == c then 0
    else
      var r := FindChar(s[1..], c);
      assert s == [s[0]] + s[1..];
      if r == -1 then -1 else r + 1
  }

  /** Python's `s.rfind(c)` for a single character. */
  function RFindChar(s: string, c: char): (r: int)
    ensures -1 <= r < |s|
    ensures r == -1 <==> c !in s
    ensures r >= 0 ==> s[r] == c && forall j :: r < j < |s| ==> s[j] != c
    decreases |s|
  {
    if |s| == 0 then -1
    else if s[|s| - 1] == c then |s| - 1
    else
      var r := RFindChar(s[..|s| - 1], c);
      assert s == s[..|s| - 1] + [s[|s| - 1]];
      r
  }

  /** Python's `str.lower()` restricted to ASCII letters. */
  function LowerChar(c: char): char {
    if 'A' <= c <= 'Z' then (c as int + 32) as char else c
  }

  function Lower(s: string): (r: string)
    ensures |r| == |s|
    ensures forall i :: 0 <= i < |s| ==> r[i] == LowerChar(s[i])
  {
    if s == [] then [] else [LowerChar(s[0])] + Lower(s[1..])
  }
}
