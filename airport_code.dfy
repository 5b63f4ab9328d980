/**
 * `extractAirportCode`: the code written between parentheses in a location
 * label such as "Dubai (DXB)", or the label itself when it has no parentheses.
 */
module AirportCode {
  import opened Wrappers
  import opened JsString

  /**
   * `location.split('(')[1].split(')')[0]` when both parentheses occur,
   * else `location`. The index `[1]` always exists in the first case, so the
   * `catch` branch of the source is unreachable and the function is total.
   */
  function ExtractAirportCode(location: string): string {
    if '(' in location && ')' in location then
      Split(Split(location, '(')[1], ')')[0]
    else
      location
  }

  /** `w` is the longest prefix of `rest` without a parenthesis. */
  predicate IsParenFreePrefix(w: string, rest: string) {
    && |w| <= |rest| && w == rest[..|w|]
    && '(' !in w && ')' !in w
    && (|w| == |rest| || rest[|w|] == '(' || rest[|w|] == ')')
  }

  /** The first part of a split is the longest prefix without the separator. */
  lemma SplitFirst(s: string, c: char)
    ensures var p := Split(s, c)[0];
      |p| <= |s| && p == s[..|p|] && c !in p && (|p| == |s| || s[|p|] == c)
  {
  }

  /** The second part of a split starts right after the first separator. */
  lemma SplitSecond(s: string, c: char)
    requires c in s
    ensures IndexOf(s, c).Some?
    ensures Split(s, c)[1] == Split(s[IndexOf(s, c).value + 1..], c)[0]
  {
  }

  /** With both parentheses present, the result is the text after the first '(' up to the next '(' or ')'. */
  lemma ParenthesisedCode(location: string)
    requires '(' in location && ')' in location
    ensures var i := IndexOf(location, '(').value;
      IsParenFreePrefix(ExtractAirportCode(location), location[i + 1..])
  {
    var i := IndexOf(location, '(').value;
    var rest := location[i + 1..];
    SplitSecond(location, '(');
    var inner := Split(rest, '(')[0];
    SplitFirst(rest, '(');
    SplitFirst(inner, ')');
    var w := Split(inner, ')')[0];
    PrefixOfPrefix(rest, inner, w);
  }

  lemma PrefixOfPrefix(rest: string, inner: string, w: string)
    requires |inner| <= |rest| && inner == rest[..|inner|] && '(' !in inner
    requires |inner| == |rest| || rest[|inner|] == '('
    requires |w| <= |inner| && w == inner[..|w|] && ')' !in w
    requires |w| == |inner| || inner[|w|] == ')'
    ensures IsParenFreePrefix(w, rest)
  {
    assert forall k :: 0 <= k < |w| ==> w[k] == inner[k];
    if |w| < |inner| {
      assert inner[|w|] == rest[|w|];
    }
  }

  /** Without both parentheses the label is already taken to be a code. */
  lemma UnparenthesisedUnchanged(location: string)
    requires !('(' in location && ')' in location)
    ensures ExtractAirportCode(location) == location
  {
  }

  /** The result is a contiguous slice of the label. */
  lemma CodeIsSlice(location: string)
    ensures |ExtractAirportCode(location)| <= |location|
    ensures exists p :: 0 <= p <= |location| && OccursAt(location, p, ExtractAirportCode(location))
  {
    if '(' in location && ')' in location {
      CodeAfterParen(location);
    } else {
      assert OccursAt(location, 0, location);
    }
  }

  /** The code sits right after the first '('. */
  lemma CodeAfterParen(location: string)
    requires '(' in location && ')' in location
    ensures OccursAt(location, IndexOf(location, '(').value + 1, ExtractAirportCode(location))
  {
    ParenthesisedCode(location);
    var i := IndexOf(location, '(').value;
    PrefixOfSuffix(location, i + 1, ExtractAirportCode(location));
  }

  /** A prefix of the suffix from `k` occurs at `k`. */
  lemma PrefixOfSuffix(s: string, k: nat, w: string)
    requires k <= |s| && IsParenFreePrefix(w, s[k..])
    ensures OccursAt(s, k, w)
  {
    assert s[k..][..|w|] == s[k..k + |w|];
  }

  /** In the parenthesised case no parenthesis is left, so a second extraction changes nothing. */
  lemma ExtractIdempotent(location: string)
    ensures ExtractAirportCode(ExtractAirportCode(location)) == ExtractAirportCode(location)
  {
    if '(' in location && ')' in location {
      ParenthesisedCode(location);
    }
  }

  lemma DubaiExample()
    ensures ExtractAirportCode("Dubai (DXB)") == "DXB"
  {
    var s := "Dubai (DXB)";
    assert s[6] == '(' && s[10] == ')' && '(' !in s[..6];
    IndexOfFirst(s, '(', 6);
    ParenthesisedCode(s);
    assert s[7..] == "DXB)";
    OnlyParenFreePrefix(ExtractAirportCode(s));
  }

  lemma OnlyParenFreePrefix(w: string)
    requires IsParenFreePrefix(w, "DXB)")
    ensures w == "DXB"
  {
    var rest := "DXB)";
    assert rest[0] == 'D' && rest[1] == 'X' && rest[2] == 'B' && rest[3] == ')';
    assert rest[..3] == "DXB";
    assert ')' in rest;
  }
}
