/**
 * `processFlights`: each scraped Qatar Airways card text has its whitespace
 * runs collapsed and its ends trimmed, and is then either rewritten as one
 * fixed-format sentence or tagged as unrecognized.
 */
module ScraperUtils {
  import opened Wrappers
  import opened JsString
  import opened PieceRegex

  /** `s.replace(/\s+/g, ' ')`: every maximal whitespace run becomes one space. */
  function CollapseSpaces(s: string): (r: string)
    ensures forall i :: 0 <= i < |r| && IsSpace(r[i]) ==> r[i] == ' '
    ensures forall i :: 0 <= i < |r| - 1 ==> !(r[i] == ' ' && r[i + 1] == ' ')
    ensures r == [] <==> s == []
    ensures r != [] ==> (IsSpace(r[0]) <==> IsSpace(s[0]))
    ensures NonSpace(r) == NonSpace(s)
    decreases |s|
  {
    if s == [] then []
    else if IsSpace(s[0]) then
      var rest := s[LeadingSpaces(s)..];
      var r := [' '] + CollapseSpaces(rest);
      assert NonSpace(s) == NonSpace(rest) by {
        SpacesThenRest(s, LeadingSpaces(s));
      }
      assert r[1..] == CollapseSpaces(rest);
      r
    else
      var r := [s[0]] + CollapseSpaces(s[1..]);
      assert r[1..] == CollapseSpaces(s[1..]);
      r
  }

  /** Collapsing keeps the words: it rewrites only the gaps between them. */
  lemma {:induction false} CollapseKeepsWords(s: string)
    ensures Words(CollapseSpaces(s)) == Words(s)
    ensures s != [] ==> (IsSpace(Last(CollapseSpaces(s))) <==> IsSpace(Last(s)))
    decreases |s|
  {
    if s != [] {
      var r := CollapseSpaces(s);
      if IsSpace(s[0]) {
        var rest := s[LeadingSpaces(s)..];
        assert r[1..] == CollapseSpaces(rest);
        WordsSkipSpaces(s, LeadingSpaces(s));
        CollapseKeepsWords(rest);
        assert rest != [] ==> Last(rest) == Last(s);
      } else {
        assert r[1..] == CollapseSpaces(s[1..]);
        CollapseKeepsWords(s[1..]);
      }
    }
  }

  function Last(s: string): char
    requires s != []
  {
    s[|s| - 1]
  }

  /** The characters of `s` that are not whitespace, in order. */
  function NonSpace(s: string): string {
    if s == [] then [] else (if IsSpace(s[0]) then [] else [s[0]]) + NonSpace(s[1..])
  }

  /** The maximal runs of non-whitespace characters of `s`, in order. */
  function Words(s: string): (r: seq<string>)
    ensures |s| > 0 && !IsSpace(s[0]) ==> r != [] && r[0] != [] && r[0][0] == s[0]
    ensures forall k :: 0 <= k < |r| ==> r[k] != []
    ensures forall k, i :: 0 <= k < |r| && 0 <= i < |r[k]| ==> !IsSpace(r[k][i])
    decreases |s|
  {
    if s == [] then []
    else if IsSpace(s[0]) then Words(s[1..])
    else
      var w := Words(s[1..]);
      if |s| > 1 && !IsSpace(s[1]) then [[s[0]] + w[0]] + w[1..]
      else [[s[0]]] + w
  }

  /** Leading whitespace separates no words. */
  lemma {:induction false} WordsSkipSpaces(s: string, n: nat)
    requires n <= |s|
    requires forall i :: 0 <= i < n ==> IsSpace(s[i])
    ensures Words(s) == Words(s[n..])
  {
    if n > 0 {
      assert s[1..][n - 1..] == s[n..];
      WordsSkipSpaces(s[1..], n - 1);
    }
  }

  /** Trailing whitespace separates no words. */
  lemma {:induction false} WordsBeforeSpaces(t: string, m: nat)
    requires m <= |t|
    requires forall i :: m <= i < |t| ==> IsSpace(t[i])
    ensures Words(t[..m]) == Words(t)
    decreases |t|
  {
    if m == 0 {
      WordsSkipSpaces(t, |t|);
      assert t[|t|..] == [];
    } else {
      assert t[..m][1..] == t[1..][..m - 1];
      WordsBeforeSpaces(t[1..], m - 1);
    }
  }

  lemma {:induction false} SpacesThenRest(s: string, n: nat)
    requires n <= |s|
    requires forall i :: 0 <= i < n ==> IsSpace(s[i])
    ensures NonSpace(s) == NonSpace(s[n..])
  {
    if n > 0 {
      assert s[1..][n - 1..] == s[n..];
      SpacesThenRest(s[1..], n - 1);
    }
  }

  lemma {:induction false} NonSpaceAppend(a: string, b: string)
    ensures NonSpace(a + b) == NonSpace(a) + NonSpace(b)
  {
    if a == [] {
      assert a + b == b;
    } else {
      assert (a + b)[1..] == a[1..] + b;
      NonSpaceAppend(a[1..], b);
    }
  }

  lemma AllSpaceNonSpace(s: string)
    requires forall i :: 0 <= i < |s| ==> IsSpace(s[i])
    ensures NonSpace(s) == []
  {
    SpacesThenRest(s, |s|);
  }

  /** `trim` removes only whitespace, so the non-whitespace text survives it. */
  lemma TrimKeepsNonSpace(s: string)
    ensures NonSpace(Trim(s)) == NonSpace(s)
  {
    SpacesAround(s, LeadingSpaces(s), |Trim(s)|);
  }

  /** Only whitespace before `a` and from `a + m` on: the slice between keeps all the non-whitespace text. */
  lemma SpacesAround(s: string, a: nat, m: nat)
    requires a + m <= |s|
    requires forall i :: 0 <= i < a ==> IsSpace(s[i])
    requires forall i :: a + m <= i < |s| ==> IsSpace(s[i])
    ensures NonSpace(s[a..a + m]) == NonSpace(s)
  {
    SuffixSpaces(s, a, m);
    SpacesAfter(s[a..], m);
    SpacesThenRest(s, a);
  }

  lemma SuffixSpaces(s: string, a: nat, m: nat)
    requires a + m <= |s|
    requires forall i :: a + m <= i < |s| ==> IsSpace(s[i])
    ensures s[a..][..m] == s[a..a + m]
    ensures forall i :: m <= i < |s[a..]| ==> IsSpace(s[a..][i])
  {
    assert s[a..][..m] == s[a..a + m];
    forall i | m <= i < |s[a..]| ensures IsSpace(s[a..][i]) {
      assert s[a..][i] == s[a + i];
    }
  }

  lemma {:induction false} SpacesAfter(t: string, m: nat)
    requires m <= |t|
    requires forall i :: m <= i < |t| ==> IsSpace(t[i])
    ensures NonSpace(t[..m]) == NonSpace(t)
  {
    if m == 0 {
      AllSpaceNonSpace(t);
    } else {
      assert t[..m][1..] == t[1..][..m - 1];
      SpacesAfter(t[1..], m - 1);
    }
  }

  /** The text the pattern is matched against. */
  function Normalize(s: string): string {
    Trim(CollapseSpaces(s))
  }

  /** Only plain spaces, never two in a row, none at the ends, and the same non-whitespace text. */
  predicate IsNormal(t: string) {
    && (forall i :: 0 <= i < |t| && IsSpace(t[i]) ==> t[i] == ' ')
    && (forall i :: 0 <= i < |t| - 1 ==> !(t[i] == ' ' && t[i + 1] == ' '))
    && NoSpaceAtEnds(t)
  }

  lemma NormalizeShape(s: string)
    ensures IsNormal(Normalize(s))
    ensures NonSpace(Normalize(s)) == NonSpace(s)
    ensures Words(Normalize(s)) == Words(s)
  {
    var c := CollapseSpaces(s);
    var a := LeadingSpaces(c);
    var t := Trim(c);
    assert forall i :: 0 <= i < |t| ==> t[i] == c[a + i];
    TrimKeepsNonSpace(c);
    CollapseKeepsWords(s);
    TrimKeepsWords(c);
  }

  /** `trim` removes only whitespace, so it keeps the words. */
  lemma TrimKeepsWords(s: string)
    ensures Words(Trim(s)) == Words(s)
  {
    var a, m := LeadingSpaces(s), |Trim(s)|;
    SuffixSpaces(s, a, m);
    WordsBeforeSpaces(s[a..], m);
    WordsSkipSpaces(s, a);
  }

  /** The normal text with the words of `s` is `Normalize(s)` and nothing else. */
  lemma NormalizeUnique(s: string, t: string)
    requires IsNormal(t) && Words(t) == Words(s)
    ensures t == Normalize(s)
  {
    NormalizeShape(s);
    WordsDetermine(t, Normalize(s));
  }

  /** Only plain spaces, never two in a row and none at the end. */
  predicate Spaced(t: string) {
    && (forall i :: 0 <= i < |t| && IsSpace(t[i]) ==> t[i] == ' ')
    && (forall i :: 0 <= i < |t| - 1 ==> !(t[i] == ' ' && t[i + 1] == ' '))
    && (t != [] ==> !IsSpace(Last(t)))
  }

  /** Two spaced texts that start alike and have the same words are equal. */
  lemma {:induction false} WordsDetermine(t1: string, t2: string)
    requires Spaced(t1) && Spaced(t2) && Words(t1) == Words(t2)
    requires t1 != [] && t2 != [] ==> (IsSpace(t1[0]) <==> IsSpace(t2[0]))
    ensures t1 == t2
    decreases |t1|
  {
    if t1 == [] || t2 == [] {
      if t1 != [] { SpacedHasWord(t1); }
      if t2 != [] { SpacedHasWord(t2); }
    } else if IsSpace(t1[0]) {
      assert |t1| > 1 && |t2| > 1;
      assert !IsSpace(t1[1]) && !IsSpace(t2[1]);
      WordsDetermine(t1[1..], t2[1..]);
      assert t1 == [t1[0]] + t1[1..] && t2 == [t2[0]] + t2[1..];
    } else {
      var w1, w2 := Words(t1[1..]), Words(t2[1..]);
      var joined1 := |t1| > 1 && !IsSpace(t1[1]);
      var joined2 := |t2| > 1 && !IsSpace(t2[1]);
      assert joined1 == joined2;
      if joined1 {
        assert w1[0] == Words(t1)[0][1..] && w2[0] == Words(t2)[0][1..];
        assert w1[1..] == Words(t1)[1..] && w2[1..] == Words(t2)[1..];
        assert w1 == [w1[0]] + w1[1..] && w2 == [w2[0]] + w2[1..];
      } else {
        assert w1 == Words(t1)[1..] && w2 == Words(t2)[1..];
      }
      assert w1 == w2;
      WordsDetermine(t1[1..], t2[1..]);
      assert t1 == [t1[0]] + t1[1..] && t2 == [t2[0]] + t2[1..];
    }
  }

  /** A non-empty spaced text has a word. */
  lemma {:induction false} SpacedHasWord(t: string)
    requires t != [] && !IsSpace(Last(t))
    ensures Words(t) != []
    decreases |t|
  {
    if IsSpace(t[0]) {
      assert Last(t[1..]) == Last(t);
      SpacedHasWord(t[1..]);
    }
  }

  /** Normalising is idempotent: normal text is left as it is. */
  lemma NormalizeIdempotent(s: string)
    ensures Normalize(Normalize(s)) == Normalize(s)
  {
    NormalizeShape(s);
    NormalFixed(Normalize(s));
  }

  lemma NormalFixed(t: string)
    requires IsNormal(t)
    ensures Normalize(t) == t
  {
    CollapseNormal(t);
    TrimNoSpaceAtEnds(t);
  }

  lemma {:induction false} CollapseNormal(t: string)
    requires forall i :: 0 <= i < |t| && IsSpace(t[i]) ==> t[i] == ' '
    requires forall i :: 0 <= i < |t| - 1 ==> !(t[i] == ' ' && t[i + 1] == ' ')
    ensures CollapseSpaces(t) == t
    decreases |t|
  {
    if t != [] {
      if IsSpace(t[0]) {
        assert LeadingSpaces(t) == 1 by {
          if |t| > 1 {
            assert !IsSpace(t[1]);
          }
        }
      }
      CollapseNormal(t[1..]);
    }
  }

  lemma TrimNoSpaceAtEnds(t: string)
    requires NoSpaceAtEnds(t)
    ensures Trim(t) == t
  {
    if t != [] {
      assert LeadingSpaces(t) == 0;
      assert TrailingSpaces(t) == 0;
    }
  }

  /**
   * `/(?:Lowest fare\s*)?(\d{2}:\d{2})\s+ISB\s+(\d+ Stop),\s+([\dh\s]+m)\s+(\d{2}:\d{2}\+?\d?)DXB.*?(PKR [\d,]+)/`
   */
  function CardPattern(): seq<Piece> {
    [ Piece(OptLowestFare, Greedy),
      Piece(Clock, Greedy),                      // group 1: departure
      Piece(Chars(Space, 1), Greedy),
      Piece(Lit("ISB"), Greedy),
      Piece(Chars(Space, 1), Greedy),
      Piece(StopCount, Greedy),                  // group 2: stops
      Piece(Lit(","), Greedy),
      Piece(Chars(Space, 1), Greedy),
      Piece(Duration, Greedy),                   // group 3: duration
      Piece(Chars(Space, 1), Greedy),
      Piece(ArrivalClock, Greedy),               // group 4: arrival
      Piece(Lit("DXB"), Greedy),
      Piece(Chars(NotLineTerminator, 0), Lazy),
      Piece(PkrAmount, Greedy) ]                 // group 5: price
  }

  /** The five capture groups of a recognized card. */
  datatype CardFields = CardFields(departure: string, stops: string, duration: string, arrival: string, price: string)

  /** What the pattern guarantees about the groups. */
  predicate WellFormedCard(c: CardFields) {
    && IsClock(c.departure)
    && Spells(StopCount, c.stops)
    && IsDuration(c.duration)
    && Spells(ArrivalClock, c.arrival)
    && Spells(PkrAmount, c.price)
  }

  /** The groups of the pattern's match on the normalised card, if any. */
  function CardMatch(flight: string): (r: Option<CardFields>)
    ensures r.Some? ==> WellFormedCard(r.value)
  {
    match Exec(CardPattern(), Normalize(flight))
    case None => None
    case Some(m) =>
      CardGroups(m.chunks);
      Some(CardFields(m.chunks[1], m.chunks[5], m.chunks[8], m.chunks[10], m.chunks[13]))
  }

  lemma CardGroups(cs: seq<string>)
    requires SpellsAll(CardPattern(), cs)
    ensures |cs| == 14 && WellFormedCard(CardFields(cs[1], cs[5], cs[8], cs[10], cs[13]))
  {
    var P := CardPattern();
    assert Spells(P[1].token, cs[1]) && Spells(P[5].token, cs[5]) && Spells(P[8].token, cs[8]);
    assert Spells(P[10].token, cs[10]) && Spells(P[13].token, cs[13]);
  }

  /** The fixed-format rewrite of a recognized card. */
  function Sentence(c: CardFields): string {
    c.departure + " from ISB to DXB at " + c.arrival + " with " + c.stops
    + " and duration " + c.duration + " (" + c.price + ")"
  }

  const UnrecognizedTag := "Unrecognized format: "

  /**
   * The rewrite reads back: the departure time, then ` from ISB to DXB at `,
   * the arrival, and at the end the `PKR` price in parentheses.
   */
  lemma SentenceFields(c: CardFields)
    requires WellFormedCard(c)
    ensures var s := Sentence(c);
      && |s| >= 25 + |c.arrival| + |c.price| + 1
      && s[..5] == c.departure && s[5..25] == " from ISB to DXB at "
      && s[25..25 + |c.arrival|] == c.arrival
      && s[|s| - |c.price| - 1..] == c.price + ")" && c.price[..4] == "PKR "
  {
    assert Spells(PkrAmount, c.price) && IsClock(c.departure);
    SentenceSlices(c.departure, c.arrival, c.stops, c.duration, c.price);
  }

  lemma SentenceSlices(departure: string, arrival: string, stops: string, duration: string, price: string)
    requires |departure| == 5
    ensures var s := Sentence(CardFields(departure, stops, duration, arrival, price));
      && |s| >= 25 + |arrival| + |price| + 1
      && s[..5] == departure && s[5..25] == " from ISB to DXB at "
      && s[25..25 + |arrival|] == arrival
      && s[|s| - |price| - 1..] == price + ")"
  {
    var s := Sentence(CardFields(departure, stops, duration, arrival, price));
    var head := departure + " from ISB to DXB at " + arrival;
    var mid := " with " + stops + " and duration " + duration + " (";
    assert s == head + mid + (price + ")");
    assert s[..|head|] == head;
    assert head[..5] == departure && head[5..25] == " from ISB to DXB at " && head[25..] == arrival;
  }



  /** The tag is followed by the original card text, before normalisation. */
  function ProcessFlight(flight: string): string {
    match CardMatch(flight)
    case Some(c) => Sentence(c)
    case None => UnrecognizedTag + flight
  }

  /** `flights.map(...)`: one output per card, each computed from its own card only. */
  function ProcessFlights(flights: seq<string>): (r: seq<string>)
    ensures |r| == |flights|
    ensures forall i :: 0 <= i < |r| ==> r[i] == ProcessFlight(flights[i])
  {
    seq(|flights|, i requires 0 <= i < |flights| => ProcessFlight(flights[i]))
  }

  predicate IsTagged(out: string) {
    |UnrecognizedTag| <= |out| && out[..|UnrecognizedTag|] == UnrecognizedTag
  }

  /** An output carries the tag exactly when the card was not recognized; the tag is then followed by the card. */
  lemma TaggedIffUnrecognized(flight: string)
    ensures IsTagged(ProcessFlight(flight)) <==> CardMatch(flight).None?
    ensures CardMatch(flight).None? ==> ProcessFlight(flight)[|UnrecognizedTag|..] == flight
  {
    var r := CardMatch(flight);
    if r.Some? {
      SentenceStartsWithDigit(r.value);
    }
  }

  lemma SentenceStartsWithDigit(c: CardFields)
    requires WellFormedCard(c)
    ensures !IsTagged(Sentence(c))
  {
    assert Sentence(c)[0] == c.departure[0];
    assert UnrecognizedTag[0] == 'U';
  }

  /** A direct listing has no `N Stop` and is never recognized. */
  lemma RecognizedHasStops(flight: string)
    requires CardMatch(flight).Some?
    ensures var s := CardMatch(flight).value.stops;
      |s| >= 6 && s[|s| - 5..] == " Stop" && AllIn(Digit, s[..|s| - 5])
  {
  }

  predicate NoSymbol(s: string) {
    forall i :: 0 <= i < |s| ==> !IsCurrencySymbol(s[i])
  }

  lemma NoSymbolAppend(a: string, b: string)
    requires NoSymbol(a) && NoSymbol(b)
    ensures NoSymbol(a + b)
  {
    assert forall i :: 0 <= i < |a + b| ==> (a + b)[i] == if i < |a| then a[i] else b[i - |a|];
  }

  lemma NoSymbolSplit(s: string, k: nat)
    requires k <= |s| && NoSymbol(s[..k]) && NoSymbol(s[k..])
    ensures NoSymbol(s)
  {
    assert s == s[..k] + s[k..];
    NoSymbolAppend(s[..k], s[k..]);
  }

  /** The fixed words of the rewrite hold no currency symbol. */
  lemma FixedWordsHaveNoSymbol()
    ensures NoSymbol(" from ISB to DXB at ") && NoSymbol(" with ") && NoSymbol(" and duration ")
    ensures NoSymbol(" (") && NoSymbol(")")
  {
  }

  /** The five groups hold no currency symbol: each is made of digits, letters, spaces and punctuation. */
  lemma GroupsHaveNoSymbol(c: CardFields)
    requires WellFormedCard(c)
    ensures NoSymbol(c.departure) && NoSymbol(c.arrival) && NoSymbol(c.stops)
    ensures NoSymbol(c.duration) && NoSymbol(c.price)
  {
    ClocksHaveNoSymbol(c.departure, c.arrival);
    StopsHaveNoSymbol(c.stops);
    DurationHasNoSymbol(c.duration);
    PriceHasNoSymbol(c.price);
  }

  lemma ClocksHaveNoSymbol(departure: string, arrival: string)
    requires IsClock(departure) && Spells(ArrivalClock, arrival)
    ensures NoSymbol(departure) && NoSymbol(arrival)
  {
    assert IsClock(arrival[..5]);
    assert forall i :: 0 <= i < 5 ==> arrival[i] == arrival[..5][i];
  }

  lemma StopsHaveNoSymbol(stops: string)
    requires Spells(StopCount, stops)
    ensures NoSymbol(stops)
  {
    var k := |stops| - 5;
    assert NoSymbol(stops[..k]) by {
      assert AllIn(Digit, stops[..k]);
    }
    assert NoSymbol(stops[k..]) by {
      assert stops[k..] == " Stop";
    }
    NoSymbolSplit(stops, k);
  }

  lemma DurationHasNoSymbol(duration: string)
    requires IsDuration(duration)
    ensures NoSymbol(duration)
  {
    var k := |duration| - 1;
    assert NoSymbol(duration[..k]) by {
      assert AllIn(DurationChar, duration[..k]);
    }
    NoSymbolSplit(duration, k);
  }

  lemma PriceHasNoSymbol(price: string)
    requires Spells(PkrAmount, price)
    ensures NoSymbol(price)
  {
    assert NoSymbol(price[..4]) by {
      assert price[..4] == "PKR ";
    }
    assert NoSymbol(price[4..]) by {
      assert AllIn(DigitOrComma, price[4..]);
    }
    NoSymbolSplit(price, 4);
  }

  /** None of £ $ € ¥ ₹ occurs in the rewrite of a recognized card. */
  lemma SentenceHasNoSymbol(c: CardFields)
    requires WellFormedCard(c)
    ensures NoSymbol(Sentence(c))
  {
    GroupsHaveNoSymbol(c);
    FixedWordsHaveNoSymbol();
    var s := c.departure + " from ISB to DXB at ";
    NoSymbolAppend(c.departure, " from ISB to DXB at ");
    NoSymbolAppend(s, c.arrival);
    s := s + c.arrival;
    NoSymbolAppend(s, " with ");
    s := s + " with ";
    NoSymbolAppend(s, c.stops);
    s := s + c.stops;
    NoSymbolAppend(s, " and duration ");
    s := s + " and duration ";
    NoSymbolAppend(s, c.duration);
    s := s + c.duration;
    NoSymbolAppend(s, " (");
    s := s + " (";
    NoSymbolAppend(s, c.price);
    s := s + c.price;
    NoSymbolAppend(s, ")");
  }
}
