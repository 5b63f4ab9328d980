/**
 * Text-mode parsing of one Qatar Airways listing: a primary pattern, a fallback
 * pattern that also expects the literal `Flight details` before the price, and
 * the record built from the capture groups.
 */
module ParseFlightData {
  import opened Wrappers
  import opened JsString
  import opened PieceRegex
  import opened FlightTypes

  const DefaultAirline := "Qatar Airways"

  /**
   * The pieces both patterns start with:
   * `([A-Za-z\s]+?)?\s*(\d{1,2}:\d{2})\s+([A-Z]{3})\s+(.*?)(?:,|\s)\s*([\dh\s]+m)\s+(\d{1,2}:\d{2})(\+\d+)?([A-Z]{3}).*?`
   */
  function Head(): seq<Piece> {
    [ Piece(Chars(LetterOrSpace, 0), LazyThenSkip), // group 1: airline prefix
      Piece(Chars(Space, 0), Greedy),
      Piece(ShortClock, Greedy),                    // group 2: departure time
      Piece(Chars(Space, 1), Greedy),
      Piece(Exactly(Upper, 3), Greedy),             // group 3: departure airport
      Piece(Chars(Space, 1), Greedy),
      Piece(Chars(NotLineTerminator, 0), Lazy),     // group 4: stops
      Piece(Exactly(CommaOrSpace, 1), Greedy),
      Piece(Chars(Space, 0), Greedy),
      Piece(Duration, Greedy),                      // group 5: duration
      Piece(Chars(Space, 1), Greedy),
      Piece(ShortClock, Greedy),                    // group 6: arrival time
      Piece(OptDayOffset, Greedy),                  // group 7: next-day marker
      Piece(Exactly(Upper, 3), Greedy),             // group 8: arrival airport
      Piece(Chars(NotLineTerminator, 0), Lazy) ]
  }

  /** `([£$€¥₹])([\d,]*)`: groups 9 and 10. */
  function Price(): seq<Piece> {
    [ Piece(Exactly(Currency, 1), Greedy), Piece(Chars(DigitOrComma, 0), Greedy) ]
  }

  function Primary(): seq<Piece> {
    Head() + Price()
  }

  function Fallback(): seq<Piece> {
    Head() + [Piece(Lit("Flight details"), Greedy)] + Price()
  }

  /** The ten capture groups; an optional group that did not participate is `None`. */
  datatype Captures = Captures(
    prefix: Option<string>,
    departureTime: string,
    departureAirport: string,
    stops: string,
    duration: string,
    arrivalTime: string,
    dayOffset: Option<string>,
    arrivalAirport: string,
    currency: char,
    amount: string)

  predicate IsAirportCode(w: string) {
    |w| == 3 && AllIn(Upper, w)
  }

  /** What the patterns guarantee about the groups of a successful match. */
  predicate WellFormed(c: Captures) {
    && (c.prefix.Some? ==> c.prefix.value != "" && AllIn(LetterOrSpace, c.prefix.value))
    && IsShortClock(c.departureTime)
    && IsAirportCode(c.departureAirport)
    && AllIn(NotLineTerminator, c.stops)
    && IsDuration(c.duration)
    && IsShortClock(c.arrivalTime)
    && (c.dayOffset.Some? ==> IsDayOffset(c.dayOffset.value))
    && IsAirportCode(c.arrivalAirport)
    && IsCurrencySymbol(c.currency)
    && AllIn(DigitOrComma, c.amount)
  }

  /** Groups 1 and 7 sit under `?` and cannot match empty: they took part exactly when they consumed text. */
  function Group(w: string): (r: Option<string>)
    ensures r.Some? <==> w != ""
    ensures r.Some? ==> r.value == w
  {
    if w == "" then None else Some(w)
  }

  /** The groups of a match of `Primary()` (price at chunk 15) or `Fallback()` (price at chunk 16). */
  function CapturesOf(cs: seq<string>, price: nat): Captures
    requires 14 <= price && price + 1 < |cs| && |cs[price]| == 1
  {
    Captures(Group(cs[0]), cs[2], cs[4], cs[6], cs[9], cs[11], Group(cs[12]), cs[13], cs[price][0], cs[price + 1])
  }

  /** The chunks of the groups, each in its token's language, make well-formed captures. */
  lemma GroupsWellFormed(cs: seq<string>, price: nat)
    requires 14 <= price && price + 1 < |cs|
    requires Spells(Chars(LetterOrSpace, 0), cs[0]) && Spells(ShortClock, cs[2])
    requires Spells(Exactly(Upper, 3), cs[4]) && Spells(Chars(NotLineTerminator, 0), cs[6])
    requires Spells(Duration, cs[9]) && Spells(ShortClock, cs[11]) && Spells(OptDayOffset, cs[12])
    requires Spells(Exactly(Upper, 3), cs[13])
    requires Spells(Exactly(Currency, 1), cs[price]) && Spells(Chars(DigitOrComma, 0), cs[price + 1])
    ensures |cs[price]| == 1 && WellFormed(CapturesOf(cs, price))
  {
  }

  lemma PrimaryGroups(cs: seq<string>)
    requires SpellsAll(Primary(), cs)
    ensures |cs| == 17 && |cs[15]| == 1 && WellFormed(CapturesOf(cs, 15))
  {
    var P := Primary();
    assert Spells(P[0].token, cs[0]) && Spells(P[2].token, cs[2]) && Spells(P[4].token, cs[4]);
    assert Spells(P[6].token, cs[6]) && Spells(P[9].token, cs[9]) && Spells(P[11].token, cs[11]);
    assert Spells(P[12].token, cs[12]) && Spells(P[13].token, cs[13]);
    assert Spells(P[15].token, cs[15]) && Spells(P[16].token, cs[16]);
    GroupsWellFormed(cs, 15);
  }

  lemma FallbackGroups(cs: seq<string>)
    requires SpellsAll(Fallback(), cs)
    ensures |cs| == 18 && |cs[16]| == 1 && WellFormed(CapturesOf(cs, 16))
  {
    var F := Fallback();
    assert Spells(F[0].token, cs[0]) && Spells(F[2].token, cs[2]) && Spells(F[4].token, cs[4]);
    assert Spells(F[6].token, cs[6]) && Spells(F[9].token, cs[9]) && Spells(F[11].token, cs[11]);
    assert Spells(F[12].token, cs[12]) && Spells(F[13].token, cs[13]);
    assert Spells(F[16].token, cs[16]) && Spells(F[17].token, cs[17]);
    GroupsWellFormed(cs, 16);
  }

  /** `rawData.match(<primary pattern>)` */
  function PrimaryMatch(raw: string): (r: Option<Captures>)
    ensures r.Some? ==> WellFormed(r.value)
  {
    match Exec(Primary(), raw)
    case None => None
    case Some(m) =>
      PrimaryGroups(m.chunks);
      Some(CapturesOf(m.chunks, 15))
  }

  /** `rawData.match(<fallback pattern>)` */
  function FallbackMatch(raw: string): (r: Option<Captures>)
    ensures r.Some? ==> WellFormed(r.value)
  {
    match Exec(Fallback(), raw)
    case None => None
    case Some(m) =>
      FallbackGroups(m.chunks);
      Some(CapturesOf(m.chunks, 16))
  }

  /** Arrival time: group 6, followed by the `+N` day marker when there is one. */
  predicate IsArrivalTime(a: string) {
    || IsShortClock(a)
    || (|a| > 4 && IsShortClock(a[..4]) && IsDayOffset(a[4..]))
    || (|a| > 5 && IsShortClock(a[..5]) && IsDayOffset(a[5..]))
  }

  /** The shape of every record the parser can return. */
  predicate IsParsedRecord(f: Flight) {
    && (f.airline == DefaultAirline
        || (|f.airline| > 16 && f.airline[..15] == DefaultAirline + " (" && f.airline[|f.airline| - 1] == ')'))
    && IsShortClock(f.departureTime)
    && IsAirportCode(f.departureAirport)
    && IsArrivalTime(f.arrivalTime)
    && IsAirportCode(f.arrivalAirport)
    && NoSpaceAtEnds(f.stops)
    && IsDuration(f.duration)
    && |f.price| >= 1 && IsCurrencySymbol(f.price[0]) && AllIn(DigitOrComma, f.price[1..])
  }

  /** The record built from the capture groups. */
  function Assemble(c: Captures): (f: Flight)
    requires WellFormed(c)
    ensures IsParsedRecord(f)
  {
    var arrivalTime := if c.dayOffset.Some? then c.arrivalTime + c.dayOffset.value else c.arrivalTime;
    var airlinePrefix := if c.prefix.Some? then Trim(c.prefix.value) else "";
    var airline := if airlinePrefix != "" then DefaultAirline + " (" + airlinePrefix + ")" else DefaultAirline;
    assert c.dayOffset.Some? ==> arrivalTime[..|c.arrivalTime|] == c.arrivalTime;
    Flight(airline, c.departureTime, c.departureAirport, arrivalTime, c.arrivalAirport,
           Trim(c.stops), c.duration, [c.currency] + c.amount)
  }

  /** `parseFlightData`: the primary match if there is one, else the fallback match, else null. */
  function ParseFlightData(raw: string): (r: Option<Flight>)
    ensures r.Some? ==> IsParsedRecord(r.value)
  {
    match PrimaryMatch(raw)
    case Some(c) => Some(Assemble(c))
    case None =>
      match FallbackMatch(raw)
      case Some(c) => Some(Assemble(c))
      case None => None
  }

  /**
   * Every string the fallback pattern matches is matched by the primary pattern:
   * the primary's `.*?` before the price absorbs the literal `Flight details`.
   */
  lemma FallbackImpliesPrimary(raw: string)
    ensures FallbackMatch(raw).Some? ==> PrimaryMatch(raw).Some?
  {
    if Exec(Fallback(), raw).Some? {
      var m := Exec(Fallback(), raw).value;
      var pc := Merge(m.chunks, 14);
      PrimaryFromFallback(m.chunks);
      ConcatMerge(m.chunks, 14);
      ExecComplete(Primary(), raw, m.start, pc);
    }
  }

  /** A fallback decomposition, with the literal folded into the `.*?` before it, is a primary one. */
  lemma PrimaryFromFallback(cs: seq<string>)
    requires SpellsAll(Fallback(), cs)
    ensures SpellsAll(Primary(), Merge(cs, 14))
  {
    var pc := Merge(cs, 14);
    var P, F := Primary(), Fallback();
    assert forall k :: 0 <= k < 14 ==> pc[k] == cs[k] && P[k] == F[k];
    assert pc[14] == cs[14] + cs[15] && pc[15] == cs[16] && pc[16] == cs[17];
    assert P[15] == F[16] && P[16] == F[17];
    assert Spells(F[14].token, cs[14]) && cs[15] == "Flight details";
    assert P[14].token == Chars(NotLineTerminator, 0);
    assert AllIn(NotLineTerminator, cs[14] + cs[15]);
  }

  /**
   * The result is null exactly when the primary pattern fails, and otherwise it is
   * the record of the primary match: the fallback branch never yields a record.
   */
  lemma FallbackBranchNeverUsed(raw: string)
    ensures ParseFlightData(raw).None? <==> PrimaryMatch(raw).None?
    ensures PrimaryMatch(raw).Some? ==> ParseFlightData(raw) == Some(Assemble(PrimaryMatch(raw).value))
  {
    FallbackImpliesPrimary(raw);
  }

  /** The airline is the default name, with the trimmed prefix in parentheses when the prefix is not blank. */
  lemma AirlineName(c: Captures)
    requires WellFormed(c)
    ensures Assemble(c).airline == DefaultAirline
            <==> c.prefix.None? || forall i :: 0 <= i < |c.prefix.value| ==> IsSpace(c.prefix.value[i])
    ensures Assemble(c).airline != DefaultAirline
            ==> Assemble(c).airline == DefaultAirline + " (" + Trim(c.prefix.value) + ")"
  {
    if c.prefix.Some? {
      TrimEmptyIffBlank(c.prefix.value);
    }
  }

  /**
   * The remaining fields come straight from the groups: the times and codes
   * verbatim, the arrival time with its day marker appended, the stops trimmed,
   * the duration untrimmed and the price as symbol followed by the amount.
   */
  lemma FieldsFromGroups(c: Captures)
    requires WellFormed(c)
    ensures var f := Assemble(c);
      && f.departureTime == c.departureTime && f.departureAirport == c.departureAirport
      && f.arrivalAirport == c.arrivalAirport && f.duration == c.duration
      && f.stops == Trim(c.stops)
      && f.price[0] == c.currency && f.price[1..] == c.amount
      && |c.arrivalTime| <= |f.arrivalTime| && f.arrivalTime[..|c.arrivalTime|] == c.arrivalTime
      && (f.arrivalTime == c.arrivalTime <==> c.dayOffset.None?)
      && (c.dayOffset.Some? ==> f.arrivalTime[|c.arrivalTime|..] == c.dayOffset.value)
  {
  }

  /** A string without any of the symbols £ $ € ¥ ₹ never parses: both patterns need one. */
  lemma NoSymbolNoRecord(raw: string)
    requires forall i :: 0 <= i < |raw| ==> !IsCurrencySymbol(raw[i])
    ensures ParseFlightData(raw) == None
  {
    if Exec(Primary(), raw).Some? {
      var m := Exec(Primary(), raw).value;
      assert Spells(Primary()[15].token, m.chunks[15]);
      ChunkCharInInput(Primary(), raw, m, 15, 0);
    }
    if Exec(Fallback(), raw).Some? {
      var m := Exec(Fallback(), raw).value;
      assert Spells(Fallback()[16].token, m.chunks[16]);
      ChunkCharInInput(Fallback(), raw, m, 16, 0);
    }
  }
}
