/**
 * The few JavaScript `String.prototype` operations the gateway relies on
 * (`startsWith`, `endsWith`, `trim`, and `replace` with a string pattern),
 * stated over `seq<char>`.
 */
module JsStrings {

  predicate StartsWith(s: string, prefix: string) {
    |prefix| <= |s| && s[..|prefix|] == prefix
  }

  predicate EndsWith(s: string, suffix: string) {
    |suffix| <= |s| && s[|s| - |suffix|..] == suffix
  }

  /** ECMAScript WhiteSpace and LineTerminator code points: what `trim` removes. */
  const Whitespace: set<char> := {
    '\t', '\n', '\U{000B}', '\U{000C}', '\r', ' ', '\U{00A0}', '\U{1680}',
    '\U{2000}', '\U{2001}', '\U{2002}', '\U{2003}', '\U{2004}', '\U{2005}',
    '\U{2006}', '\U{2007}', '\U{2008}', '\U{2009}', '\U{200A}',
    '\U{2028}', '\U{2029}', '\U{202F}', '\U{205F}', '\U{3000}', '\U{FEFF}'
  }

  predicate IsWhitespace(c: char) {
    c in Whitespace
  }

  /** Drops the longest all-whitespace prefix. */
  function TrimStart(s: string): (r: string)
    ensures |r| <= |s| && r == s[|s| - |r|..]
    ensures r == [] || !IsWhitespace(r[0])
    ensures forall i :: 0 <= i < |s| - |r| ==> IsWhitespace(s[i])
  {
    if s != [] && IsWhitespace(s[0]) then
      var r := TrimStart(s[1..]);
      assert s[1..][|s| - 1 - |r|..] == s[|s| - |r|..];
      r
    else s
  }

  /** Drops the longest all-whitespace suffix. */
  function TrimEnd(s: string): (r: string)
    ensures |r| <= |s| && r == s[..|r|]
    ensures r == [] || !IsWhitespace(r[|r| - 1])
    ensures forall i :: |r| <= i < |s| ==> IsWhitespace(s[i])
  {
    if s != [] && IsWhitespace(s[|s| - 1]) then
      var r := TrimEnd(s[..|s| - 1]);
      assert s[..|s| - 1][..|r|] == s[..|r|];
      r
    else s
  }

  /** `s.trim()`: empty exactly when `s` is all whitespace, and otherwise neither starts nor ends with it. */
  function Trim(s: string): (r: string)
    ensures |r| <= |s|
    ensures r == [] <==> forall i :: 0 <= i < |s| ==> IsWhitespace(s[i])
    ensures r != [] ==> !IsWhitespace(r[0]) && !IsWhitespace(r[|r| - 1])
  {
    var t := TrimStart(s);
    var r := TrimEnd(t);
    assert r == [] ==> t == [];
    r
  }

  /**
   * `trim` only removes, part one: its result is the slice of `s` that starts
   * where `TrimStart` stops.
   */
  lemma {:induction false} TrimKeepsMiddle(s: string, k: nat)
    requires k == |s| - |TrimStart(s)|
    ensures k + |Trim(s)| <= |s|
    ensures Trim(s) == s[k..k + |Trim(s)|]
  {
    assert TrimStart(s) == s[k..];
    assert Trim(s) == TrimEnd(s[k..]);
    TrimEndOfSuffix(s, k);
  }

  /**
   * `trim` only removes, part two: everything before and after that slice is
   * whitespace.
   */
  lemma {:induction false} TrimDropsOnlyWhitespace(s: string, k: nat)
    requires k == |s| - |TrimStart(s)|
    ensures forall j :: 0 <= j < k ==> IsWhitespace(s[j])
    ensures forall j :: k + |Trim(s)| <= j < |s| ==> IsWhitespace(s[j])
  {
    assert TrimStart(s) == s[k..];
    assert Trim(s) == TrimEnd(s[k..]);
    TrimEndOfSuffix(s, k);
  }

  /** What `TrimEnd` drops from a suffix of `s` is a whitespace run of `s` itself. */
  lemma {:induction false} TrimEndOfSuffix(s: string, k: nat)
    requires k <= |s|
    ensures k + |TrimEnd(s[k..])| <= |s|
    ensures TrimEnd(s[k..]) == s[k..k + |TrimEnd(s[k..])|]
    ensures forall j :: k + |TrimEnd(s[k..])| <= j < |s| ==> IsWhitespace(s[j])
  {
    var t := s[k..];
    var r := TrimEnd(t);
    forall j | k + |r| <= j < |s| ensures IsWhitespace(s[j]) {
      assert s[j] == t[j - k];
    }
  }

  /** `pattern` occurs in `s` starting at index `i`. */
  predicate OccursAt(s: string, pattern: string, i: nat) {
    i + |pattern| <= |s| && s[i..i + |pattern|] == pattern
  }

  /** `s.replace(pattern, '')` with a string pattern: removes the first occurrence only. */
  function RemoveFirst(s: string, pattern: string): (r: string)
    ensures |r| == |s| || |r| == |s| - |pattern|
    decreases |s|
  {
    if pattern == [] || |s| < |pattern| then s
    else if s[..|pattern|] == pattern then s[|pattern|..]
    else [s[0]] + RemoveFirst(s[1..], pattern)
  }

  /** Where the pattern does not occur, nothing is removed. */
  lemma {:induction false} RemoveFirstAbsent(s: string, pattern: string)
    requires forall i: nat :: !OccursAt(s, pattern, i)
    ensures RemoveFirst(s, pattern) == s
    decreases |s|
  {
    if pattern != [] && |s| >= |pattern| {
      assert !OccursAt(s, pattern, 0);
      forall i: nat ensures !OccursAt(s[1..], pattern, i) {
        assert !OccursAt(s, pattern, i + 1);
      }
      RemoveFirstAbsent(s[1..], pattern);
      assert s == [s[0]] + s[1..];
    }
  }

  /**
   * `replace` removes the first occurrence: when `i` is the least index at
   * which a non-empty pattern occurs, the result is `s` with `s[i..i + |p|]`
   * cut out.
   */
  lemma {:induction false} RemoveFirstIsFirst(s: string, pattern: string, i: nat)
    requires pattern != [] && OccursAt(s, pattern, i)
    requires forall j: nat :: j < i ==> !OccursAt(s, pattern, j)
    ensures RemoveFirst(s, pattern) == s[..i] + s[i + |pattern|..]
    decreases i
  {
    if i == 0 {
      assert s[..|pattern|] == pattern;
    } else {
      assert !OccursAt(s, pattern, 0);
      assert OccursAt(s[1..], pattern, i - 1) by {
        assert s[1..][i - 1..i - 1 + |pattern|] == s[i..i + |pattern|];
      }
      forall j: nat | j < i - 1 ensures !OccursAt(s[1..], pattern, j) {
        assert !OccursAt(s, pattern, j + 1);
        assert s[1..][j..j + |pattern|] == s[j + 1..j + 1 + |pattern|];
      }
      RemoveFirstIsFirst(s[1..], pattern, i - 1);
      assert s[..i] == [s[0]] + s[1..][..i - 1];
      assert s[i + |pattern|..] == s[1..][i - 1 + |pattern|..];
    }
  }

  /**
   * When the pattern's first character does not occur in `a`, the first
   * occurrence in `a + pattern + b` is the one right after `a`, and it is the
   * one removed.
   */
  lemma {:induction false} RemoveFirstAfter(a: string, pattern: string, b: string)
    requires pattern != [] && pattern[0] !in a
    ensures RemoveFirst(a + pattern + b, pattern) == a + b
  {
    var s := a + pattern + b;
    if a == [] {
      assert s == pattern + b;
      assert s[..|pattern|] == pattern;
      assert s[|pattern|..] == b;
    } else {
      assert s[0] == a[0] && a[0] != pattern[0];
      assert s[..|pattern|] != pattern by {
        assert s[..|pattern|][0] == a[0];
      }
      assert s[1..] == a[1..] + pattern + b;
      RemoveFirstAfter(a[1..], pattern, b);
      assert a + b == [a[0]] + (a[1..] + b);
    }
  }
}
