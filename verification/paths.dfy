/**
 * The parts of Python's pathlib and os.path that name the output files:
 * `Path(p).name`, `.stem`, `.suffix`, `os.path.join` and `str.replace`.
 * Paths are POSIX strings with '/' as the separator.
 */
module Paths {

  /** Python's str.rfind for one character: the last index of c in s, or -1. */
  function RFind(s: string, c: char): (r: int)
    ensures -1 <= r < |s|
    ensures r >= 0 ==> s[r] == c
  {
    if s == [] then -1
    else if s[|s| - 1] == c then |s| - 1
    else RFind(s[..|s| - 1], c)
  }

  /** No c comes after the index RFind returns; so -1 means c does not occur. */
  lemma {:induction false} RFindIsLast(s: string, c: char)
    ensures forall j :: RFind(s, c) < j < |s| ==> s[j] != c
  {
    if s != [] && s[|s| - 1] != c {
      RFindIsLast(s[..|s| - 1], c);
    }
  }

  /**
   * `Path(p).name`: what follows the last '/'. pathlib first drops trailing
   * slashes, which this does not; a path ending in '/' names a directory,
   * fails os.path.isfile and never reaches the workers.
   */
  function BaseName(p: string): string {
    p[RFind(p, '/') + 1..]
  }

  /** The name is the part of the path after its last '/': it holds no '/', and a path without one is its own name. */
  lemma BaseNameShape(p: string)
    ensures var name := BaseName(p);
      && '/' !in name
      && |name| <= |p| && p[|p| - |name|..] == name
      && ('/' !in p ==> name == p)
  {
    RFindIsLast(p, '/');
    var name := BaseName(p);
    forall k | 0 <= k < |name|
      ensures name[k] != '/'
    {
      assert name[k] == p[RFind(p, '/') + 1 + k];
    }
    if '/' !in p {
      assert RFind(p, '/') == -1;
    }
  }

  /** Where pathlib splits a name into stem and suffix, if it does: a '.' that is neither first nor last. */
  function SuffixStart(name: string): (k: int)
    ensures 0 <= k <= |name|
  {
    var i := RFind(name, '.');
    if 0 < i < |name| - 1 then i else |name|
  }

  /** `Path(p).stem` of a name. */
  function Stem(name: string): string {
    name[..SuffixStart(name)]
  }

  /** `Path(p).suffix` of a name. */
  function Suffix(name: string): string {
    name[SuffixStart(name)..]
  }

  /**
   * A name is its stem followed by its suffix; the suffix is empty or a '.'
   * followed by at least one character and no other '.', and only a name
   * with a non-empty stem has a suffix.
   */
  lemma StemSuffixSplit(name: string)
    ensures Stem(name) + Suffix(name) == name
    ensures var suffix := Suffix(name);
      suffix == [] || (|suffix| >= 2 && suffix[0] == '.' && '.' !in suffix[1..])
    ensures Suffix(name) != [] ==> Stem(name) != []
  {
    var k := SuffixStart(name);
    assert name[..k] + name[k..] == name;
    if k < |name| {
      RFindIsLast(name, '.');
      var suffix := Suffix(name);
      forall m | 0 <= m < |suffix| - 1
        ensures suffix[1..][m] != '.'
      {
        assert suffix[1..][m] == name[k + 1 + m];
      }
    }
  }

  /** The stem of a name without '/' has none either, so it is not an absolute path. */
  lemma StemOfName(name: string)
    requires '/' !in name
    ensures '/' !in Stem(name)
    ensures Stem(name) == [] || Stem(name)[0] == name[0]
  {
    var stem := Stem(name);
    forall k | 0 <= k < |stem|
      ensures stem[k] != '/'
    {
      assert stem[k] == name[k];
    }
  }

  predicate IsAbsolute(p: string) {
    |p| > 0 && p[0] == '/'
  }

  /** What `os.path.join(a, b)` puts before a relative `b`: `a` itself, followed by '/' unless empty or already ending in one. */
  function DirPrefix(a: string): string {
    if a == [] || a[|a| - 1] == '/' then a else a + "/"
  }

  /** `os.path.join(a, b)` for two components: an absolute `b` replaces `a`. */
  function Join(a: string, b: string): string {
    if IsAbsolute(b) then b else DirPrefix(a) + b
  }

  /** A relative component is appended to the directory: the joined path starts with the directory and ends with the component. */
  lemma JoinExtends(a: string, b: string)
    requires !IsAbsolute(b)
    ensures |a| + |b| <= |Join(a, b)|
    ensures StartsWith(Join(a, b), a) && EndsWith(Join(a, b), b)
  {
    var p := DirPrefix(a);
    assert Join(a, b) == p + b;
    assert (p + b)[..|a|] == p[..|a|];
    assert (p + b)[|p + b| - |b|..] == b;
  }

  /** Joining one directory with two different relative names gives two different paths. */
  lemma JoinInjective(a: string, b1: string, b2: string)
    requires !IsAbsolute(b1) && !IsAbsolute(b2)
    requires Join(a, b1) == Join(a, b2)
    ensures b1 == b2
  {
    var p := DirPrefix(a);
    assert b1 == (p + b1)[|p|..];
    assert b2 == (p + b2)[|p|..];
  }

  /** Joining one directory with two different relative names gives two different paths. */
  lemma JoinDistinct(a: string, b1: string, b2: string)
    requires !IsAbsolute(b1) && !IsAbsolute(b2) && b1 != b2
    ensures Join(a, b1) != Join(a, b2)
  {
    if Join(a, b1) == Join(a, b2) {
      JoinInjective(a, b1, b2);
    }
  }

  /** Two strings that agree around a middle part agree on the middle part too. */
  lemma MiddleInjective(head: string, m1: string, m2: string, tail: string)
    requires head + m1 + tail == head + m2 + tail
    ensures m1 == m2
  {
    var s1, s2 := head + m1 + tail, head + m2 + tail;
    assert |m1| == |m2|;
    assert m1 == s1[|head|..|head| + |m1|];
    assert m2 == s2[|head|..|head| + |m2|];
  }

  predicate StartsWith(s: string, prefix: string) {
    |prefix| <= |s| && s[..|prefix|] == prefix
  }

  predicate EndsWith(s: string, suffix: string) {
    |suffix| <= |s| && s[|s| - |suffix|..] == suffix
  }

  lemma StartsWithTransitive(s: string, t: string, u: string)
    requires StartsWith(s, t) && StartsWith(t, u)
    ensures StartsWith(s, u)
  {
    assert s[..|u|] == s[..|t|][..|u|];
  }

  lemma EndsWithTransitive(s: string, t: string, u: string)
    requires EndsWith(s, t) && EndsWith(t, u)
    ensures EndsWith(s, u)
  {
    assert s[|s| - |u|..] == s[|s| - |t|..][|t| - |u|..];
  }

  lemma ConcatStartsWith(a: string, b: string)
    ensures StartsWith(a + b, a)
  {
    assert (a + b)[..|a|] == a;
  }

  /** A string that starts with `u` is `u` followed by the rest. */
  lemma PrefixSplit(s: string, u: string)
    requires StartsWith(s, u)
    ensures s == u + s[|u|..]
  {
  }

  /** Two strings whose known prefixes differ at position i do not start one with the other. */
  lemma PrefixesDisagree(s: string, d: string, u: string, v: string, i: nat)
    requires StartsWith(s, u) && StartsWith(d, v)
    requires i < |u| && i < |v| && u[i] != v[i]
    ensures !StartsWith(s, d)
  {
    assert s[i] == u[i] && d[i] == v[i];
  }

  /** Python's `s.replace(pattern, replacement)`: every occurrence, scanning left to right without overlap. */
  function ReplaceAll(s: string, pattern: string, replacement: string): (r: string)
    requires pattern != []
    decreases |s|
  {
    if s == [] then []
    else if StartsWith(s, pattern) then replacement + ReplaceAll(s[|pattern|..], pattern, replacement)
    else [s[0]] + ReplaceAll(s[1..], pattern, replacement)
  }

  /** A pattern that occurs only at the very end of `p + pattern` is replaced there and nowhere else. */
  lemma {:induction false} ReplaceOnlyAtEnd(p: string, pattern: string, replacement: string)
    requires pattern != []
    requires forall i :: 0 <= i < |p| ==> !StartsWith((p + pattern)[i..], pattern)
    ensures ReplaceAll(p + pattern, pattern, replacement) == p + replacement
    decreases |p|
  {
    var s := p + pattern;
    if p == [] {
      assert s == pattern && StartsWith(s, pattern) && s[|pattern|..] == [];
    } else {
      assert s[0..] == s;
      assert s[1..] == p[1..] + pattern;
      forall i | 0 <= i < |p[1..]|
        ensures !StartsWith((p[1..] + pattern)[i..], pattern)
      {
        assert (p[1..] + pattern)[i..] == s[i + 1..];
      }
      ReplaceOnlyAtEnd(p[1..], pattern, replacement);
      assert [p[0]] + (p[1..] + replacement) == p + replacement;
    }
  }

  /** Text containing no '.' is left alone by a replacement whose pattern starts with '.'. */
  lemma {:induction false} ReplaceAllSkipsDotFree(p: string, t: string, pattern: string, replacement: string)
    requires pattern != [] && pattern[0] == '.' && '.' !in p
    ensures ReplaceAll(p + t, pattern, replacement) == p + ReplaceAll(t, pattern, replacement)
    decreases |p|
  {
    if p == [] {
      assert p + t == t;
    } else {
      var s := p + t;
      assert s[0] == p[0] && p[0] != '.';
      assert !StartsWith(s, pattern);
      assert s[1..] == p[1..] + t;
      ReplaceAllSkipsDotFree(p[1..], t, pattern, replacement);
      calc {
        ReplaceAll(s, pattern, replacement);
        [p[0]] + ReplaceAll(p[1..] + t, pattern, replacement);
        [p[0]] + (p[1..] + ReplaceAll(t, pattern, replacement));
        { assert [p[0]] + p[1..] == p; }
        p + ReplaceAll(t, pattern, replacement);
      }
    }
  }
}
