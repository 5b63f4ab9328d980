/**
 * The few ECMAScript string operations the core relies on: the `\s` character set
 * (which is also the set `String.prototype.trim` removes), `trim`, `indexOf`,
 * `includes`, `replace` with a string pattern, and `||` on strings.
 * Strings are sequences of characters; surrogate pairs are not modelled.
 */
module JsString {
  import opened Wrappers

  /** WhiteSpace or LineTerminator of ECMAScript: what `\s` matches and `trim` strips. */
  predicate IsSpace(c: char) {
    c == '\t' || c == '\n' || c == '\U{000B}' || c == '\U{000C}' || c == '\r' || c == ' '
    || c == '\U{00A0}' || c == '\U{1680}' || ('\U{2000}' <= c <= '\U{200A}')
    || c == '\U{2028}' || c == '\U{2029}' || c == '\U{202F}' || c == '\U{205F}'
    || c == '\U{3000}' || c == '\U{FEFF}'
  }

  /** The characters `.` does not match. */
  predicate IsLineTerminator(c: char) {
    c == '\n' || c == '\r' || c == '\U{2028}' || c == '\U{2029}'
  }

  predicate IsDigit(c: char) { '0' <= c <= '9' }
  predicate IsUpper(c: char) { 'A' <= c <= 'Z' }
  predicate IsLetter(c: char) { IsUpper(c) || 'a' <= c <= 'z' }

  predicate NoSpaceAtEnds(s: string) {
    s == [] || (!IsSpace(s[0]) && !IsSpace(s[|s| - 1]))
  }

  /** Number of whitespace characters at the start of `s`. */
  function LeadingSpaces(s: string): (n: nat)
    ensures n <= |s|
    ensures forall i :: 0 <= i < n ==> IsSpace(s[i])
    ensures n < |s| ==> !IsSpace(s[n])
  {
    if s == [] || !IsSpace(s[0]) then 0 else 1 + LeadingSpaces(s[1..])
  }

  /** Number of whitespace characters at the end of `s`. */
  function TrailingSpaces(s: string): (n: nat)
    ensures n <= |s|
    ensures forall i :: |s| - n <= i < |s| ==> IsSpace(s[i])
    ensures n < |s| ==> !IsSpace(s[|s| - 1 - n])
  {
    if s == [] || !IsSpace(s[|s| - 1]) then 0 else 1 + TrailingSpaces(s[..|s| - 1])
  }

  /** `String.prototype.trim`: the longest slice of `s` without whitespace at either end. */
  function Trim(s: string): (r: string)
    ensures NoSpaceAtEnds(r)
    ensures LeadingSpaces(s) + |r| <= |s|
    ensures r == s[LeadingSpaces(s)..LeadingSpaces(s) + |r|]
    ensures forall i :: 0 <= i < LeadingSpaces(s) ==> IsSpace(s[i])
    ensures forall i :: LeadingSpaces(s) + |r| <= i < |s| ==> IsSpace(s[i])
  {
    var t := s[LeadingSpaces(s)..];
    var r := t[..|t| - TrailingSpaces(t)];
    assert r == [] || !IsSpace(r[0]) by {
      if r != [] {
        assert r[0] == s[LeadingSpaces(s)];
      }
    }
    r
  }

  /** `s.includes(c)` for a one-character pattern. */
  predicate Includes(s: string, c: char) {
    c in s
  }

  /** `s.indexOf(c)`, with `None` for -1. */
  function IndexOf(s: string, c: char): (r: Option<nat>)
    ensures r.None? <==> c !in s
    ensures r.Some? ==> r.value < |s| && s[r.value] == c && c !in s[..r.value]
  {
    if s == [] then None
    else if s[0] == c then Some(0)
    else match IndexOf(s[1..], c)
      case None => None
      case Some(i) =>
        assert s[..i + 1] == [s[0]] + s[1..][..i];
        Some(i + 1)
  }

  /** `w` occurs in `s` at position `i`. */
  predicate OccursAt(s: string, i: nat, w: string) {
    i + |w| <= |s| && s[i..i + |w|] == w
  }

  /** `s.indexOf(w)` for a string pattern: the first position where `w` occurs, from `from` on. */
  function FindFrom(s: string, w: string, from: nat): (r: Option<nat>)
    requires from <= |s|
    ensures r.Some? ==> from <= r.value && OccursAt(s, r.value, w)
    ensures r.Some? ==> forall j :: from <= j < r.value ==> !OccursAt(s, j, w)
    ensures r.None? ==> forall j :: from <= j <= |s| ==> !OccursAt(s, j, w)
    decreases |s| - from
  {
    if OccursAt(s, from, w) then Some(from)
    else if from == |s| then None
    else FindFrom(s, w, from + 1)
  }

  function Find(s: string, w: string): (r: Option<nat>)
    ensures r.Some? ==> OccursAt(s, r.value, w) && forall j :: 0 <= j < r.value ==> !OccursAt(s, j, w)
    ensures r.None? ==> forall j :: 0 <= j <= |s| ==> !OccursAt(s, j, w)
  {
    FindFrom(s, w, 0)
  }

  /**
   * `s.replace(pattern, replacement)` with a string pattern: only the FIRST
   * occurrence is replaced; without an occurrence `s` is returned as it is.
   */
  function ReplaceFirst(s: string, pattern: string, replacement: string): (r: string)
    ensures Find(s, pattern).None? ==> r == s
    ensures Find(s, pattern).Some? ==>
      var i := Find(s, pattern).value;
      r == s[..i] + replacement + s[i + |pattern|..]
  {
    match Find(s, pattern)
    case None => s
    case Some(i) => s[..i] + replacement + s[i + |pattern|..]
  }

  /** `a || b` on two strings: the empty string is the only falsy string. */
  function Or(a: string, b: string): (r: string)
    ensures a != "" ==> r == a
    ensures a == "" ==> r == b
  {
    if a != "" then a else b
  }

  /** `(x ?? "") || b` for a value that may be null or undefined. */
  function OrElse(x: Option<string>, b: string): (r: string)
    ensures r == if x.Some? && x.value != "" then x.value else b
  {
    Or(x.GetOr(""), b)
  }

  /** `trim` gives the empty string exactly for blank strings. */
  lemma TrimEmptyIffBlank(s: string)
    ensures Trim(s) == "" <==> forall i :: 0 <= i < |s| ==> IsSpace(s[i])
  {
    if Trim(s) == "" {
    } else {
      assert Trim(s)[0] == s[LeadingSpaces(s)];
    }
  }

  /** The parts joined back together with `c` between neighbours: the inverse of `Split`. */
  function Join(parts: seq<string>, c: char): string
    requires |parts| >= 1
  {
    if |parts| == 1 then parts[0] else parts[0] + [c] + Join(parts[1..], c)
  }

  /**
   * `s.split(c)` for a one-character separator: the maximal pieces without `c`,
   * one more than the number of occurrences of `c`.
   */
  function Split(s: string, c: char): (r: seq<string>)
    ensures |r| >= 1
    ensures forall k :: 0 <= k < |r| ==> c !in r[k]
    ensures |r| >= 2 <==> c in s
    ensures Join(r, c) == s
    decreases |s|
  {
    match IndexOf(s, c)
    case None => [s]
    case Some(i) =>
      var rest := Split(s[i + 1..], c);
      var r := [s[..i]] + rest;
      assert r[1..] == rest;
      assert s == s[..i] + [c] + s[i + 1..];
      r
  }

  /** `toLowerCase` on ASCII letters; every other character is kept. */
  function AsciiLower(s: string): (r: string)
    ensures |r| == |s|
    ensures forall i :: 0 <= i < |s| ==> r[i] == if IsUpper(s[i]) then (s[i] as int + 32) as char else s[i]
  {
    if s == [] then [] else [if IsUpper(s[0]) then (s[0] as int + 32) as char else s[0]] + AsciiLower(s[1..])
  }

  /** `IndexOf` is the position of the first occurrence. */
  lemma IndexOfFirst(s: string, c: char, i: nat)
    requires i < |s| && s[i] == c && c !in s[..i]
    ensures IndexOf(s, c) == Some(i)
  {
  }

  /** Splitting undoes joining when no part contains the separator. */
  lemma {:induction false} SplitJoin(parts: seq<string>, c: char)
    requires |parts| >= 1
    requires forall k :: 0 <= k < |parts| ==> c !in parts[k]
    ensures Split(Join(parts, c), c) == parts
  {
    if |parts| > 1 {
      var s := Join(parts, c);
      var p0 := parts[0];
      assert s == p0 + [c] + Join(parts[1..], c);
      assert s[|p0|] == c && s[..|p0|] == p0;
      IndexOfFirst(s, c, |p0|);
      assert s[|p0| + 1..] == Join(parts[1..], c);
      SplitJoin(parts[1..], c);
      assert parts == [p0] + parts[1..];
    }
  }

  /** An occurrence at `i` is the first when no earlier position starts with the pattern's first character. */
  lemma FindFirstAt(s: string, w: string, i: nat)
    requires w != [] && OccursAt(s, i, w)
    requires forall j :: 0 <= j < i ==> s[j] != w[0]
    ensures Find(s, w) == Some(i)
  {
    var r := Find(s, w);
    assert r.Some? by {
      assert !(forall j :: 0 <= j <= |s| ==> !OccursAt(s, j, w));
    }
    assert s[r.value..r.value + |w|][0] == s[r.value];
  }
}
