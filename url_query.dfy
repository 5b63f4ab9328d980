/**
 * Query strings as `URLSearchParams` holds them: an ordered list of
 * name/value pairs, rendered as `name=value` joined with `&`, and read back
 * by splitting. `get` gives the first value stored under a name.
 * Percent-encoding is not modelled: values are taken as already decoded.
 */
module UrlQuery {
  import opened Wrappers
  import opened JsString

  /** One `key=value` pair of a query string. */
  datatype Param = Param(key: string, value: string)

  function PairText(q: Param): string {
    q.key + "=" + q.value
  }

  function PairTexts(ps: seq<Param>): (r: seq<string>)
    ensures |r| == |ps|
    ensures forall k :: 0 <= k < |ps| ==> r[k] == PairText(ps[k])
  {
    if ps == [] then [] else [PairText(ps[0])] + PairTexts(ps[1..])
  }

  /** The pairs joined with `&`. */
  function Render(ps: seq<Param>): string
    requires |ps| >= 1
  {
    Join(PairTexts(ps), '&')
  }

  /** Reading a query string back: split at `&`, skip the empty parts, then split each part at its first `=`. */
  function ParseQuery(query: string): (r: seq<Param>)
    ensures |r| <= |Split(query, '&')|
  {
    ParsePairs(NonEmptyParts(Split(query, '&')))
  }

  /** The parts that are not empty, in order; `URLSearchParams` skips the empty ones. */
  function NonEmptyParts(parts: seq<string>): (r: seq<string>)
    ensures |r| <= |parts|
    ensures forall k :: 0 <= k < |r| ==> r[k] != "" && r[k] in parts
    ensures forall t :: t in parts && t != "" ==> t in r
    ensures (forall k :: 0 <= k < |parts| ==> parts[k] != "") ==> r == parts
  {
    if parts == [] then []
    else (if parts[0] == "" then [] else [parts[0]]) + NonEmptyParts(parts[1..])
  }

  function ParsePairs(parts: seq<string>): (r: seq<Param>)
    ensures |r| == |parts|
    ensures forall k :: 0 <= k < |parts| ==> r[k] == ParsePair(parts[k])
  {
    if parts == [] then [] else [ParsePair(parts[0])] + ParsePairs(parts[1..])
  }

  function ParsePair(t: string): Param {
    match IndexOf(t, '=')
    case None => Param(t, "")
    case Some(i) => Param(t[..i], t[i + 1..])
  }

  /** The first value stored under `key`. */
  function Lookup(ps: seq<Param>, key: string): (r: Option<string>)
    ensures r.Some? ==> exists k :: 0 <= k < |ps| && ps[k] == Param(key, r.value) && FirstWithKey(ps, key, k)
    ensures r.None? ==> forall k :: 0 <= k < |ps| ==> ps[k].key != key
  {
    if ps == [] then None
    else if ps[0].key == key then Some(ps[0].value)
    else
      var r := Lookup(ps[1..], key);
      if r.None? then None
      else
        var k :| 0 <= k < |ps| - 1 && ps[1..][k] == Param(key, r.value) && FirstWithKey(ps[1..], key, k);
        assert ps[k + 1] == Param(key, r.value) && FirstWithKey(ps, key, k + 1);
        r
  }

  /** No pair before index `k` has `key`. */
  predicate FirstWithKey(ps: seq<Param>, key: string, k: nat)
    requires k <= |ps|
  {
    forall j :: 0 <= j < k ==> ps[j].key != key
  }

  /** No key holds `&` or `=`, and no value holds `&`: the pairs survive rendering. */
  predicate Readable(ps: seq<Param>) {
    forall k :: 0 <= k < |ps| ==> '&' !in ps[k].key && '=' !in ps[k].key && '&' !in ps[k].value
  }

  lemma ParsePairText(q: Param)
    requires '=' !in q.key
    ensures ParsePair(PairText(q)) == q
  {
    var t := PairText(q);
    assert t[|q.key|] == '=' && t[..|q.key|] == q.key;
    IndexOfFirst(t, '=', |q.key|);
    assert t[|q.key| + 1..] == q.value;
  }

  /** Reading the rendered query gives back the pairs, in order. */
  lemma QueryRoundTrip(ps: seq<Param>)
    requires |ps| >= 1 && Readable(ps)
    ensures ParseQuery(Render(ps)) == ps
  {
    var texts := PairTexts(ps);
    PairTextsPlain(ps);
    SplitJoin(texts, '&');
    assert NonEmptyParts(texts) == texts;
    forall k | 0 <= k < |ps| ensures ParsePair(texts[k]) == ps[k] {
      ParsePairText(ps[k]);
    }
  }

  /** A rendered pair is never empty, and holds no `&` when its key and value do not. */
  lemma PairTextsPlain(ps: seq<Param>)
    requires Readable(ps)
    ensures forall k :: 0 <= k < |ps| ==> PairTexts(ps)[k] != "" && '&' !in PairTexts(ps)[k]
  {
    var texts := PairTexts(ps);
    forall k | 0 <= k < |texts| ensures texts[k] != "" && '&' !in texts[k] {
      assert texts[k] == ps[k].key + "=" + ps[k].value;
    }
  }

  /** Every key occurs once. */
  predicate DistinctKeys(ps: seq<Param>) {
    forall i, j :: 0 <= i < j < |ps| ==> ps[i].key != ps[j].key
  }

  /** With distinct keys, looking a key up finds its own pair. */
  lemma {:induction false} LookupAt(ps: seq<Param>, k: nat)
    requires k < |ps| && DistinctKeys(ps)
    ensures Lookup(ps, ps[k].key) == Some(ps[k].value)
  {
    if k > 0 {
      assert ps[0].key != ps[k].key;
      assert ps[1..][k - 1] == ps[k];
      LookupAt(ps[1..], k - 1);
    }
  }

}
