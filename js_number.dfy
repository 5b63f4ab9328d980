/**
 * The integer conversions the core uses: `parseInt(s)` without a radix
 * argument, and the decimal rendering of a non-negative integer in a template
 * literal. Numbers are unbounded integers; the loss of precision of a double
 * beyond 2^53 is not modelled.
 */
module JsNumber {
  import opened Wrappers
  import opened JsString

  /** The value of `c` as a digit in bases up to 16, or 16 when it is no such digit. */
  function DigitValue(c: char): (d: nat)
    ensures d <= 16
    ensures IsDigit(c) ==> d < 10
    ensures d < 10 ==> IsDigit(c)
  {
    if '0' <= c <= '9' then (c as int - '0' as int)
    else if 'a' <= c <= 'f' then (c as int - 'a' as int) + 10
    else if 'A' <= c <= 'F' then (c as int - 'A' as int) + 10
    else 16
  }

  /** Length of the longest prefix of `s` made of digits of base `radix`. */
  function DigitRun(s: string, radix: nat): (n: nat)
    ensures n <= |s|
    ensures forall i :: 0 <= i < n ==> DigitValue(s[i]) < radix
    ensures n < |s| ==> DigitValue(s[n]) >= radix
  {
    if s == [] || DigitValue(s[0]) >= radix then 0 else 1 + DigitRun(s[1..], radix)
  }

  /** The number a string of digits denotes in base `radix`, most significant digit first. */
  function Value(s: string, radix: nat): nat {
    if s == [] then 0 else Value(s[..|s| - 1], radix) * radix + DigitValue(s[|s| - 1])
  }

  /**
   * `parseInt(s)`, with `None` for NaN: leading whitespace is skipped, then the
   * rest is read by `ParseSigned`.
   */
  function ParseInt(s: string): Option<int> {
    ParseSigned(s[LeadingSpaces(s)..])
  }

  /**
   * One sign is taken, a `0x` or `0X` prefix selects base 16, and the longest
   * run of digits that follows is read; without any digit the result is NaN.
   */
  function ParseSigned(t: string): Option<int> {
    var negative := |t| > 0 && t[0] == '-';
    var u := if |t| > 0 && (t[0] == '-' || t[0] == '+') then t[1..] else t;
    var hex := |u| >= 2 && u[0] == '0' && (u[1] == 'x' || u[1] == 'X');
    var radix := if hex then 16 else 10;
    var v := if hex then u[2..] else u;
    var n := DigitRun(v, radix);
    if n == 0 then None
    else
      var magnitude: int := Value(v[..n], radix);
      Some(if negative then -magnitude else magnitude)
  }

  function DecimalDigit(k: nat): (c: char)
    requires k < 10
    ensures IsDigit(c) && DigitValue(c) == k
  {
    ('0' as int + k) as char
  }

  /** The decimal rendering of `n`, without leading zeros. */
  function NatToString(n: nat): (s: string)
    ensures s != []
    ensures forall i :: 0 <= i < |s| ==> IsDigit(s[i])
    ensures |s| > 1 ==> s[0] != '0'
  {
    if n < 10 then [DecimalDigit(n)] else NatToString(n / 10) + [DecimalDigit(n % 10)]
  }

  /** Reading the rendering back gives the number. */
  lemma {:induction false} ValueOfNatToString(n: nat)
    ensures Value(NatToString(n), 10) == n
  {
    var s := NatToString(n);
    if n >= 10 {
      ValueOfNatToString(n / 10);
      assert s[..|s| - 1] == NatToString(n / 10);
    }
  }

  lemma DigitRunAll(s: string, radix: nat)
    requires forall i :: 0 <= i < |s| ==> DigitValue(s[i]) < radix
    ensures DigitRun(s, radix) == |s|
  {
  }

  /** `parseInt` inverts the decimal rendering. */
  lemma ParseIntNatToString(n: nat)
    ensures ParseInt(NatToString(n)) == Some(n)
  {
    var s := NatToString(n);
    assert LeadingSpaces(s) == 0;
    assert s[0..] == s;
    DigitRunAll(s, 10);
    assert s[..|s|] == s;
    ValueOfNatToString(n);
  }

  /** Leading whitespace never changes the result of `parseInt`. */
  lemma ParseIntSkipsSpaces(sp: string, s: string)
    requires forall i :: 0 <= i < |sp| ==> IsSpace(sp[i])
    ensures ParseInt(sp + s) == ParseInt(s)
  {
    LeadingSpacesPrefix(sp, s);
    var k := LeadingSpaces(s);
    var t := sp + s;
    assert t[|sp|..] == s;
    assert t[LeadingSpaces(t)..] == s[k..] by {
      assert t[|sp| + k..] == t[|sp|..][k..];
    }
  }

  lemma {:induction false} LeadingSpacesPrefix(sp: string, s: string)
    requires forall i :: 0 <= i < |sp| ==> IsSpace(sp[i])
    ensures LeadingSpaces(sp + s) == |sp| + LeadingSpaces(s)
  {
    if sp != [] {
      assert (sp + s)[1..] == sp[1..] + s;
      LeadingSpacesPrefix(sp[1..], s);
    } else {
      assert sp + s == s;
    }
  }
}
